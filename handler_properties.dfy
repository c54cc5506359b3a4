/** What the handler promises, stated over all environments, events, digests
    and service replies: gate order, which calls each outcome makes, and the
    exact record and response. */
module HandlerProperties {
  import opened Wrappers
  import opened Hex
  import opened Handler

  /** Both checked environment values are set and non-empty. */
  predicate ConfigSet(env: Env)
  {
    Truthy(env.ssmPasswordParameterName) && Truthy(env.hostedZoneId)
  }

  /** The three required query fields are present and non-empty. */
  predicate FieldsPresent(event: Event)
  {
    var q := Query(event);
    Truthy(q.subdomain) && Truthy(q.password) && Truthy(q.newVal)
  }

  /** The answer the parameter store gives to the handler's read. */
  function StoreReply(env: Env, services: Services): ParameterReply
    requires ConfigSet(env)
  {
    services.getParameter(env.ssmPasswordParameterName.value)
  }

  /** The store answered with a usable (truthy) value. */
  predicate StoredValueUsable(env: Env, services: Services)
    requires ConfigSet(env)
  {
    StoreReply(env, services).ParameterResolved? && Truthy(StoreReply(env, services).value)
  }

  /** The caller's password hashes to the stored value. */
  predicate PasswordMatches(env: Env, event: Event, sha256: string -> Digest, services: Services)
    requires ConfigSet(env) && FieldsPresent(event) && StoredValueUsable(env, services)
  {
    Authenticated(sha256, Query(event).password.value, StoreReply(env, services).value.value)
  }

  /** The record an authenticated request upserts. */
  function ExpectedRecord(env: Env, event: Event): ResourceRecordSet
    requires FieldsPresent(event)
  {
    var q := Query(event);
    BuildRecord(FullDomain(q.subdomain.value, env.domainName), q.newVal.value, q)
  }

  // ------------------------------------------------------------ configuration

  /** Unset or empty SSM_PASSWORD_PARAMETER_NAME or HOSTED_ZONE_ID makes the
      invocation throw, parameter name first, before any call and without a
      response. */
  lemma ConfigurationGate(env: Env, event: Event, sha256: string -> Digest, services: Services)
    ensures Main(env, event, sha256, services).completion.Threw? <==> !ConfigSet(env)
    ensures !Truthy(env.ssmPasswordParameterName) ==>
              Main(env, event, sha256, services) == Outcome(Threw(SsmParameterNotSet), [])
    ensures Truthy(env.ssmPasswordParameterName) && !Truthy(env.hostedZoneId) ==>
              Main(env, event, sha256, services) == Outcome(Threw(HostedZoneNotSet), [])
  {
  }

  /** DOMAIN_NAME is never checked: with both checked values set and the fields
      present, changing it (even to unset) never makes the handler throw, keeps
      a 403 a 403 and a failed read a failed read, and keeps the number of
      calls. (Route53's answer, and so a 200 or a 500 after the upsert, may
      still depend on the record name it produces.) */
  lemma DomainNameNotChecked(env: Env, d: Option<string>, event: Event, sha256: string -> Digest, services: Services)
    requires ConfigSet(env) && FieldsPresent(event)
    ensures var o, o' := Main(env, event, sha256, services), Main(env.(domainName := d), event, sha256, services);
            o.completion.Returned? && o'.completion.Returned?
            && (o.completion.response.statusCode == 403 <==> o'.completion.response.statusCode == 403)
            && (o.completion.response.statusCode == 500 && |o.trace| == 1 <==>
                o'.completion.response.statusCode == 500 && |o'.trace| == 1)
            && |o.trace| == |o'.trace|
  {
  }

  /** With DOMAIN_NAME unset, the upserted name ends in ".undefined". */
  lemma UnsetDomainNameInterpolated(env: Env, event: Event, sha256: string -> Digest, services: Services)
    requires ConfigSet(env) && FieldsPresent(event) && env.domainName == None
    requires StoredValueUsable(env, services) && PasswordMatches(env, event, sha256, services)
    ensures var o := Main(env, event, sha256, services);
            |o.trace| == 2
            && o.trace[1].changes[0].resourceRecordSet.name == Query(event).subdomain.value + ".undefined"
  {
  }

  // ------------------------------------------------------------ validation

  /** With the configuration set, the request is a 400 with the fixed message
      and no call exactly when a required field is absent or empty. */
  lemma MissingFieldRejected(env: Env, event: Event, sha256: string -> Digest, services: Services)
    requires ConfigSet(env)
    ensures !FieldsPresent(event) <==>
              Main(env, event, sha256, services)
              == Outcome(Returned(Response(400, None, Json(Message(MissingParameters)))), [])
  {
  }

  // ------------------------------------------------------------ authentication

  /** A failed store read, or an absent or empty stored value, is a 500 with
      the error's text, and Route53 is not called. */
  lemma StoreFailureIsInternalError(env: Env, event: Event, sha256: string -> Digest, services: Services)
    requires ConfigSet(env) && FieldsPresent(event) && !StoredValueUsable(env, services)
    ensures var text := match StoreReply(env, services)
              case ParameterRejected(t) => ErrorText(t)
              case ParameterResolved(_) => StoreReadFailed;
            Main(env, event, sha256, services)
            == Outcome(Returned(Response(500, None, Json(ErrorReport(InternalServerError, text)))),
                       [GetParameter(env.ssmPasswordParameterName.value)])
  {
  }

  /** Given a usable stored value, the answer is 403 exactly when the digest
      does not match; a 403 carries the fixed message and only the store read. */
  lemma WrongPasswordForbidden(env: Env, event: Event, sha256: string -> Digest, services: Services)
    requires ConfigSet(env) && FieldsPresent(event) && StoredValueUsable(env, services)
    ensures var o := Main(env, event, sha256, services);
            (o.completion.response.statusCode == 403 <==> !PasswordMatches(env, event, sha256, services))
            && (o.completion.response.statusCode == 403 ==>
                  o == Outcome(Returned(Response(403, None, Json(Message(InvalidPassword)))),
                               [GetParameter(env.ssmPasswordParameterName.value)]))
  {
  }

  /** A stored value the digest can never equal (not 64 lowercase hexadecimal
      characters) locks every caller out: no request ever reaches Route53. */
  lemma MalformedStoredValueLocksOut(env: Env, event: Event, sha256: string -> Digest, services: Services)
    requires ConfigSet(env) && StoredValueUsable(env, services)
    requires var s := StoreReply(env, services).value.value; !(|s| == 64 && IsHexString(s))
    ensures var o := Main(env, event, sha256, services);
            |o.trace| <= 1 && o.completion.response.statusCode != 200
            && (FieldsPresent(event) ==> o.completion.response.statusCode == 403)
  {
  }

  /** When the stored value is the hex text of a digest, a password
      authenticates exactly when it hashes to that digest. */
  lemma AuthenticatesExactlyPreimages(sha256: string -> Digest, password: string, d: Digest)
    ensures Authenticated(sha256, password, HexEncode(d)) <==> sha256(password) == d
  {
    HexEncodeInjective(sha256(password), d);
  }

  // ------------------------------------------------------------ upsert and response

  /** An authenticated request submits exactly one change, an UPSERT to the
      configured zone of `subdomain.DOMAIN_NAME` with the query's type (default
      "A"), TTL (default 300) and a single value, newVal. */
  lemma AuthenticatedRequestUpsertsOnce(env: Env, event: Event, sha256: string -> Digest, services: Services)
    requires ConfigSet(env) && FieldsPresent(event) && StoredValueUsable(env, services)
    requires PasswordMatches(env, event, sha256, services)
    ensures var o, q := Main(env, event, sha256, services), Query(event);
            |o.trace| == 2 && o.trace[0] == GetParameter(env.ssmPasswordParameterName.value)
            && o.trace[1] == ChangeResourceRecordSets(env.hostedZoneId.value, [Change(UPSERT, ExpectedRecord(env, event))])
            && ExpectedRecord(env, event) == ResourceRecordSet(
                 q.subdomain.value + "." + Interpolate(env.domainName),
                 if q.recordType.Some? then q.recordType.value else "A",
                 if q.ttl.Some? then q.ttl.value else 300,
                 [ResourceRecord(q.newVal.value)])
  {
  }

  /** After a successful upsert the status is 200; the body is exactly
      okRespBody when it is present, else the JSON message with the full domain
      and the record; the content type is text/plain exactly when okRespBody
      is non-empty, so an empty okRespBody gives an empty JSON-typed body. */
  lemma SuccessShaping(env: Env, event: Event, sha256: string -> Digest, services: Services)
    requires ConfigSet(env) && FieldsPresent(event) && StoredValueUsable(env, services)
    requires PasswordMatches(env, event, sha256, services)
    requires services.changeResourceRecordSets(env.hostedZoneId.value, [Change(UPSERT, ExpectedRecord(env, event))]).ChangeResolved?
    ensures var r, ok := Main(env, event, sha256, services).completion.response, Query(event).okRespBody;
            r.statusCode == 200
            && r.body == (if ok.Some? then Literal(ok.value)
                          else Json(Upserted(ExpectedRecord(env, event).name, ExpectedRecord(env, event))))
            && r.contentType == Some(if ok.Some? && ok.value != "" then "text/plain" else "application/json")
  {
  }

  /** A rejected Route53 call is a 500 with the error's text, after both calls. */
  lemma ProviderFailureIsInternalError(env: Env, event: Event, sha256: string -> Digest, services: Services)
    requires ConfigSet(env) && FieldsPresent(event) && StoredValueUsable(env, services)
    requires PasswordMatches(env, event, sha256, services)
    requires services.changeResourceRecordSets(env.hostedZoneId.value, [Change(UPSERT, ExpectedRecord(env, event))]).ChangeRejected?
    ensures var o := Main(env, event, sha256, services);
            var t := services.changeResourceRecordSets(env.hostedZoneId.value, [Change(UPSERT, ExpectedRecord(env, event))]).thrown;
            o.completion == Returned(Response(500, None, Json(ErrorReport(InternalServerError, ErrorText(t)))))
            && |o.trace| == 2
  {
  }

  /** A 200 is returned only to an authenticated request whose upsert
      succeeded. */
  lemma SuccessOnlyAfterAuthenticatedUpsert(env: Env, event: Event, sha256: string -> Digest, services: Services)
    requires Main(env, event, sha256, services).completion.Returned?
    requires Main(env, event, sha256, services).completion.response.statusCode == 200
    ensures ConfigSet(env) && FieldsPresent(event) && StoredValueUsable(env, services)
    ensures PasswordMatches(env, event, sha256, services)
    ensures services.changeResourceRecordSets(env.hostedZoneId.value, [Change(UPSERT, ExpectedRecord(env, event))]).ChangeResolved?
  {
  }

  // ------------------------------------------------------------ effects

  /** The two services give the same answer to call `c`. */
  predicate AgreeOn(s: Services, s': Services, c: Call)
  {
    match c
    case GetParameter(name) => s.getParameter(name) == s'.getParameter(name)
    case ChangeResourceRecordSets(zone, changes) =>
      s.changeResourceRecordSets(zone, changes) == s'.changeResourceRecordSets(zone, changes)
  }

  /** The trace records every dependence on the outside world: services that
      answer the traced calls alike give the same outcome. So a 400 reads
      nothing, and a 403 or a failed read has not consulted Route53. */
  lemma OnlyTracedCallsMatter(env: Env, event: Event, sha256: string -> Digest, s: Services, s': Services)
    requires forall c :: c in Main(env, event, sha256, s).trace ==> AgreeOn(s, s', c)
    ensures Main(env, event, sha256, s') == Main(env, event, sha256, s)
  {
    var o := Main(env, event, sha256, s);
    if ConfigSet(env) && FieldsPresent(event) {
      var name := env.ssmPasswordParameterName.value;
      assert o.trace[0] == GetParameter(name) && o.trace[0] in o.trace;
      assert AgreeOn(s, s', o.trace[0]);
      assert s.getParameter(name) == s'.getParameter(name);
      if StoredValueUsable(env, s) && PasswordMatches(env, event, sha256, s) {
        var batch := [Change(UPSERT, ExpectedRecord(env, event))];
        assert o.trace[1] == ChangeResourceRecordSets(env.hostedZoneId.value, batch) && o.trace[1] in o.trace;
        assert AgreeOn(s, s', o.trace[1]);
        assert s.changeResourceRecordSets(env.hostedZoneId.value, batch)
            == s'.changeResourceRecordSets(env.hostedZoneId.value, batch);
      }
    }
  }
}
