# Dynamic-DNS update handler: a Dafny model

This project models the request handler of a dynamic-DNS endpoint: an AWS
Lambda (`main` in `lambda/src/handler.ts`) that takes a subdomain, a password
and a new record value from the query string. It checks the password's SHA-256
digest against a value held in the SSM Parameter Store. If the digests match,
it submits one Route53 `UPSERT` of the record `subdomain.DOMAIN_NAME`.

The handler is modelled as the pure function `Handler.Main`. Its inputs:

* the environment (`Env`);
* the event (`Event`, carrying the optional `QueryParameters`);
* an oracle for SHA-256 (`sha256: string -> Digest`, 32 bytes);
* the two SDK clients as functions from request to reply (`Services`): the
  Parameter Store read and Route53's `changeResourceRecordSets`. Each either
  settles with a value or throws.

It returns an `Outcome`: either a response (status, content type, body) or a
thrown configuration error, together with the ordered trace of external calls
made. That trace is always `[]`, `[GetParameter(name)]` or
`[GetParameter(name), ChangeResourceRecordSets(zone, [Change(UPSERT, record)])]`.

The `digest('hex')` step is modelled exactly (module `Hex`, lowercase, two
digits per byte). It has an inverse, so comparing hex strings is the same as
comparing digests. It also means a stored value that is not 64 lowercase hex
characters can never match.

Modules: `Wrappers` (option and result values, `??`), `Hex` (hex encoding),
`Handler` (data model, stages and `Main`), `HandlerProperties` (the lemmas).

Behaviour of `lambda/src/handler.ts` that the model keeps:

* Only `SSM_PASSWORD_PARAMETER_NAME` and `HOSTED_ZONE_ID` are checked. An
  unset `DOMAIN_NAME` is interpolated as the text `undefined`, so the record
  becomes `subdomain.undefined`.
* The configuration check throws on every invocation, outside the `try`. It
  never becomes a 500.
* Defaults use `??`. A supplied empty `recordType` is kept as `""`. A supplied
  empty `okRespBody` becomes the body, and the content type is then
  `application/json`, because the content type tests truthiness rather than
  presence.
* A present but empty stored value is treated like a missing one: a 500 with
  "Failed to retrieve the password from SSM Parameter Store.".
* A thrown value that is not an `Error` is reported as "Unknown error".

## Model

| member | source | states |
|---|---|---|
| `Wrappers.Option.OrElse` | lambda/src/handler.ts:54-55 | nullish coalescing: the default replaces only an absent value, never a present one (even `""`) |
| `Hex.HexEncode` | lambda/src/handler.ts:43 | the hex digest has two characters per byte, all from the lowercase alphabet `0-9a-f` |
| `Hex.HexDecode` | lambda/src/handler.ts:43 | reading an even-length hex string back gives half as many bytes (the partner of `HexEncode`) |
| `Hex.DecodeEncode` | lambda/src/handler.ts:43 | decoding the hex text of any byte string gives the same bytes back |
| `Hex.EncodeDecode` | lambda/src/handler.ts:43 | every even-length lowercase hex string is the encoding of the bytes it decodes to |
| `Hex.HexEncodeInjective` | lambda/src/handler.ts:43-44 | two byte strings have equal hex text iff they are equal, so the `!==` test compares digests |
| `Handler.Truthy` | lambda/src/handler.ts:13-28 | JavaScript truthiness of an optional string: absent and `""` are falsy, any non-empty string is truthy (the `!x` tests at lines 13, 18, 28, 39 and 76) |
| `Handler.Interpolate` | lambda/src/handler.ts:51 | a template literal prints a present value as itself and an absent one as `undefined` |
| `Handler.Query` | lambda/src/handler.ts:23-27 | `queryStringParameters?.f` gives the query's field when there is a query string, and every field absent when there is none (also lines 54-55 and 72) |
| `Handler.Authenticated` | lambda/src/handler.ts:43-44 | the hash gate passes only for a stored value of 64 lowercase hex characters, and then that value decodes to the password's SHA-256 |
| `Handler.FullDomain` | lambda/src/handler.ts:51 | the full domain is the subdomain, then one `.`, then the interpolated DOMAIN_NAME |
| `Handler.UpsertBatch` | lambda/src/handler.ts:62-68 | the change batch holds exactly one change, an UPSERT of the given record |
| `Handler.ErrorText` | lambda/src/handler.ts:88 | an `Error` reports its message; any other thrown value reports "Unknown error" |
| `Handler.BadRequest` | lambda/src/handler.ts:29-34 | the validation failure is a 400 with no content type and the fixed missing-parameters message |
| `Handler.Forbidden` | lambda/src/handler.ts:45-48 | the hash mismatch is a 403 with no content type and `{message: "Invalid password."}` |
| `Handler.ResolveConfig` | lambda/src/handler.ts:12-20 | configuration succeeds iff both the parameter name and the zone id are truthy; when the parameter name is falsy its message wins, otherwise the zone message; `DOMAIN_NAME` plays no part |
| `Handler.Validate` | lambda/src/handler.ts:23-35 | the request passes iff subdomain, password and newVal are all present and non-empty, and then carries exactly those three values |
| `Handler.BuildRecord` | lambda/src/handler.ts:51-58 | the record's name is the full domain; type and TTL are the supplied values when present (even `""`) and "A" / 300 only when absent; its only value is newVal |
| `Handler.InternalError` | lambda/src/handler.ts:82-91 | the catch block answers 500, with no content type, with `{message: "Internal server error", error}`, where `error` is the thrown `Error`'s message, or "Unknown error" for any other thrown value |
| `Handler.SuccessResponse` | lambda/src/handler.ts:72-81 | status 200; the body is exactly okRespBody when present, else the JSON upsert message; the content type is one of text/plain and application/json, and text/plain iff okRespBody is non-empty |
| `Handler.Main` | lambda/src/handler.ts:10-92 | the handler throws iff configuration fails, and then makes no call; the trace holds at most the store read and then one single-change UPSERT to the zone; a 400 happens iff nothing was called; a 403 made only the read; a 200 follows a resolved Route53 call |
| `HandlerProperties.ConfigurationGate` | lambda/src/handler.ts:12-20 | an unset or empty parameter name or zone id throws the matching message, with an empty trace and no response |
| `HandlerProperties.DomainNameNotChecked` | lambda/src/handler.ts:12-20 | with both checked values set and the fields present, changing `DOMAIN_NAME` (even to unset) never makes the handler throw, keeps a 403 a 403 and a failed read a failed read, and keeps the number of calls made |
| `HandlerProperties.UnsetDomainNameInterpolated` | lambda/src/handler.ts:51 | with `DOMAIN_NAME` unset, an authenticated request upserts `subdomain + ".undefined"` |
| `HandlerProperties.MissingFieldRejected` | lambda/src/handler.ts:23-35 | with configuration set, the outcome is the fixed 400 message with an empty trace iff a required field is absent or empty |
| `HandlerProperties.StoreFailureIsInternalError` | lambda/src/handler.ts:37-41 | a rejected read, or an absent or empty stored value, yields a 500 with the thrown text (or the fixed store message) after only the read, so Route53 is never called |
| `HandlerProperties.WrongPasswordForbidden` | lambda/src/handler.ts:43-49 | with a usable stored value, the status is 403 iff the digest does not match; a 403 is `{message: "Invalid password."}` after only the read |
| `HandlerProperties.MalformedStoredValueLocksOut` | lambda/src/handler.ts:37-49 | a stored value that is not 64 lowercase hex characters makes no request reach Route53 or get a 200; every complete request gets 403 |
| `HandlerProperties.AuthenticatesExactlyPreimages` | lambda/src/handler.ts:43-44 | when the stored value is the hex text of a digest, a password passes iff its SHA-256 is that digest |
| `HandlerProperties.AuthenticatedRequestUpsertsOnce` | lambda/src/handler.ts:51-70 | an authenticated request makes exactly the read and then one UPSERT to `HOSTED_ZONE_ID` of name `subdomain.DOMAIN_NAME`, type `recordType` or "A", TTL `ttl` or 300, values `[newVal]` |
| `HandlerProperties.SuccessShaping` | lambda/src/handler.ts:72-81 | after a resolved upsert: status 200, body okRespBody if present else the JSON message with full domain and record, content type text/plain iff okRespBody is non-empty |
| `HandlerProperties.ProviderFailureIsInternalError` | lambda/src/handler.ts:59-70 | a rejected Route53 call yields the 500 error report with its text, after both calls |
| `HandlerProperties.SuccessOnlyAfterAuthenticatedUpsert` | lambda/src/handler.ts:28-81 | a 200 implies configuration set, fields present, a usable stored value, a matching digest and a resolved upsert of the expected record |
| `HandlerProperties.OnlyTracedCallsMatter` | lambda/src/handler.ts:37-70 | services that answer the traced calls alike give the same outcome, so the trace lists every external dependence and no call happens before its gate |

## Left out

- SHA-256 itself: an oracle `sha256: string -> Digest`, since only its output length and equality matter to the handler.
- `Number(...)` on `ttl`: the query's `ttl` is modelled as an already-converted optional integer. The NaN and floating-point results of the conversion are not modelled.
- The exact `JSON.stringify` output: bodies are structured values (`Message`, `Upserted`, `ErrorReport`). The 200 message keeps its full domain and record as parts, not as text.
- The AWS SDK clients, network transport, `async`/`await` and the module-level client objects: replaced by the `Services` reply functions and the returned trace.
- Route53's own idempotence of UPSERT: that is provider behaviour, not in this code. The model shows only that the one change's action is `UPSERT`.
- `console.error` logging in the catch block: it has no effect on the result.
- Timing behaviour of the `!==` comparison: the model has no notion of time.
- `lib/inadyn-route53-stack.ts`: declarative infrastructure (zone, parameter, role, function URL) with no request logic.
