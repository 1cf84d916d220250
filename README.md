# APIClient request pipeline, modelled in Dafny

This project models the decision logic of a small Alamofire-based HTTP
client: how it builds a `URLRequest`, how its request interceptor rewrites
the headers of every outgoing request, how it sanitises the session
store's header dictionary, and how it turns a transport outcome, or an
error thrown while building, into exactly one delivery to the caller. The
exception is status 401: it is recorded and logs the user out, and the
caller's completion is never called.

Modules, one per source file plus two of shared types:

- `Wrappers` (`wrappers.dfy`): `Option` and `Result`.
- `Http` (`http.dfy`): `Method` (Alamofire's `HTTPMethod`, compared by raw
  value), `Url`, `Request` (a `URLRequest`: URL, method, header fields,
  body), `Error` (a Swift error seen through its `localizedDescription` and
  `AFError.responseCode`), and `ApiError`. `ApiError` is the `NSError` the
  client delivers: domain, code and localized description.
- `APIClientHelper` (`api_client_helper.dfy`) covers `rejectNilHeaders` and
  `encodingParameters`. `Sanitized` specifies the header result. The
  `RejectNilHeaders` method is the `reduce(into:)` loop, proved equal to it.
  `JoinedBy` and its partner `SplitOn` show that the comma-joined value of
  a non-empty list keeps every non-nil element in order, provided no
  element's rendering itself contains ",".
- `URLRequestBuilder` (`url_request_builder.dfy`) covers `buildURLRequest`.
  It is a function over a `Foundation` value. That value bundles the
  Foundation and Alamofire operations the builder calls: URL parsing,
  query appending, URL encoding, JSON encoding. They are arbitrary
  functions, so the proofs hold for any implementation of them.
- `APIRequestInterceptor` (`api_request_interceptor.dfy`) covers `adapt`.
  `MutableURLRequest` is a class for the `var request` that `adapt` updates
  in place. `Adapt` is the method and `Adapted` the function that
  specifies it. Header names are compared ASCII case-insensitively, as
  `value(forHTTPHeaderField:)` does (section 5.1 of RFC 9110).
- `APIClient` (`api_client.dfy`) covers `handleResponse`, `handleError` and
  the two `request` entry points. They are methods that append to an
  `EffectLog`. The log's entries are `Dispatch` (`session.request`),
  `Record` (Crashlytics), `Logout` (`APISupport.shared.doLogout`) and
  `Complete` (the caller's completion). Each method is proved to append
  exactly the effects that a specification function gives:
  `ResponseEffects`, `ErrorEffects` or `RequestEffects`. The properties
  about those effects are stated through `Dispatches`, `Records`,
  `Logouts` and `Completions`. Each of these picks one kind of entry out
  of a log, in order.

Collaborators the source calls but does not define become parameters:

- the transport (`session.request(...).validate().responseDecodable` or
  `.responseData`);
- `Data.parseErrorData`;
- the session store's `setAuthorizationToken()`;
- `URL(string:)` and `URL.appendingQueryParameters`;
- the two parameter encoders.

Every operation is a Dafny function or a method with no hidden state, so
equal inputs give equal requests and equal effects.

Two behaviours of the code are worth noting:

- `adapt` replaces the whole header set of the incoming request
  (`allHTTPHeaderFields =`), so a `Content-Type` that the caller set on the
  request is lost. `IncomingHeadersDiscarded` states this.
- `queryParameters` is a dictionary, so no order of its entries is
  promised. Query appending stays abstract in the model.

## Model

| member | source | states |
|---|---|---|
| `APIClientHelper.NonNil` | APIClient/APIClientHelper.swift:25 | the non-nil elements of a list: no more than the list has, and each one occurs in the list |
| `APIClientHelper.NonNilKeepsEvery` | APIClient/APIClientHelper.swift:25 | every non-nil element of a list survives the filter |
| `APIClientHelper.JoinedBy` | APIClient/APIClientHelper.swift:25 | the joined value is as long as the parts together plus one separator between each neighbouring pair, and starts with the first part |
| `APIClientHelper.NonNilAppend` | APIClient/APIClientHelper.swift:25 | filtering distributes over concatenation, so surviving elements keep their original order |
| `APIClientHelper.NilContributesNothing` | APIClient/APIClientHelper.swift:25 | a nil element anywhere in a list adds neither text nor a separator to the joined value |
| `APIClientHelper.AllNilHasNoneLeft` | APIClient/APIClientHelper.swift:25 | an empty or all-nil list has no elements left to join |
| `APIClientHelper.SplitJoined` | APIClient/APIClientHelper.swift:25 | when no rendering contains ",", splitting the joined value on "," gives back exactly the renderings, in order |
| `APIClientHelper.Rendered` | APIClient/APIClientHelper.swift:24-27 | an entry is dropped exactly when its value is nil; a scalar gives its rendering; a list with no non-nil element gives "" |
| `APIClientHelper.Sanitized` | APIClient/APIClientHelper.swift:22-30 | output keys are a subset of input keys; a key is present exactly when its value is not nil; a scalar maps to its rendering; a list maps to its non-nil renderings joined by "," |
| `APIClientHelper.EmptyCollectionKept` | APIClient/APIClientHelper.swift:24-25 | a list-valued key with no non-nil elements is still present, mapped to "" |
| `APIClientHelper.RejectNilHeaders` | APIClient/APIClientHelper.swift:22-30 | the fold over the dictionary, in any visiting order, returns exactly `Sanitized(source)` |
| `APIClientHelper.EncodingParameters` | APIClient/APIClientHelper.swift:11-20 | nil object or failed encoding gives the empty map; a non-empty result is exactly the object's encoding read back as a dictionary |
| `URLRequestBuilder.Thrown` | APIClient/URLRequestBuilder.swift:25-27 | an invalid-URL error carries no response code; an encoder's error is passed on unchanged |
| `URLRequestBuilder.BuildURLRequest` | APIClient/URLRequestBuilder.swift:17-43 | fails with `InvalidURL(baseURL + path)` exactly when the verbatim concatenation does not parse; the query is appended only when given; the method is the one given; a GET gets only URL encoding (no body, no headers); any other method gets only a JSON body and `Content-Type: application/json`, with the URL left as parsed; an encoder failure is thrown as `EncodingFailed` |
| `URLRequestBuilder.NoQueryKeepsParsedURL` | APIClient/URLRequestBuilder.swift:29-31 | without query parameters a non-GET request's URL is exactly the parsed concatenation |
| `URLRequestBuilder.EncodingChosenByMethodAlone` | APIClient/URLRequestBuilder.swift:36-40 | two non-GET methods produce the same request apart from the method, or the same error |
| `APIRequestInterceptor.SameFieldName` | APIClient/APIRequestInterceptor.swift:13 | field names that are equal match |
| `APIRequestInterceptor.SameFieldNameIsEquivalence` | APIClient/APIRequestInterceptor.swift:13 | matching field names is reflexive, symmetric and transitive |
| `APIRequestInterceptor.LookupIgnoresCase` | APIClient/APIRequestInterceptor.swift:13 | for every header set, two names that differ only in letter case are either both found or both not found |
| `APIRequestInterceptor.ContentTypeLookupIgnoresCase` | APIClient/APIRequestInterceptor.swift:13 | an instance of `LookupIgnoresCase`: the lookup of `Content-Type` finds a field stored as `content-type` or as `CONTENT-TYPE` |
| `APIRequestInterceptor.HasField` | APIClient/APIRequestInterceptor.swift:13 | a field stored under exactly the name is found; an empty header set has no field |
| `APIRequestInterceptor.MutableURLRequest.HasValue` | APIClient/APIRequestInterceptor.swift:13 | `value(forHTTPHeaderField:) != nil` on the request's current headers: a field stored under exactly that name is found, and none is found in an empty header set |
| `APIRequestInterceptor.WithoutField` | APIClient/APIRequestInterceptor.swift:14 | removing a field name removes every case variant of it and keeps every other field |
| `APIRequestInterceptor.MutableURLRequest.constructor` | APIClient/APIRequestInterceptor.swift:9 | the mutable copy starts equal to the incoming request |
| `APIRequestInterceptor.MutableURLRequest.SetAllHTTPHeaderFields` | APIClient/APIRequestInterceptor.swift:12 | the header set becomes exactly the given one; URL, method and body are unchanged |
| `APIRequestInterceptor.MutableURLRequest.SetValue` | APIClient/APIRequestInterceptor.swift:14 | the field replaces any field of the same name in any case; afterwards the field is present |
| `APIRequestInterceptor.Adapted` | APIClient/APIRequestInterceptor.swift:9-16 | URL, method and body are unchanged; the headers are the sanitised session headers, plus `Content-Type: application/json` exactly when those lack a Content-Type; an existing Content-Type keeps its value; a Content-Type is always present |
| `APIRequestInterceptor.IncomingHeadersDiscarded` | APIClient/APIRequestInterceptor.swift:10-12 | requests differing only in their own headers adapt to the same request |
| `APIRequestInterceptor.AdaptedFieldsComeFromSession` | APIClient/APIRequestInterceptor.swift:10-15 | every adapted field is a non-nil session entry or the default Content-Type |
| `APIRequestInterceptor.Adapt` | APIClient/APIRequestInterceptor.swift:6-17 | completes once, with success, carrying `Adapted(urlRequest, sessionHeaders)` |
| `APIClient.StatusCode` | APIClient/APIClient.swift:61 | the HTTP status when a response exists, else -1 |
| `APIClient.HasServerMessage` | APIClient/APIClient.swift:72-74 | a server message is found only in a present, non-empty body, and for such a body exactly when the parsed text is non-empty |
| `APIClient.NormalizedError` | APIClient/APIClient.swift:61-77 | code is the HTTP status, or -1 without a response; message (and domain) is the parsed server text when the body is non-empty and the text non-empty, else the failure's description |
| `APIClient.ThrownError` | APIClient/APIClient.swift:89-92 | code is the error's `responseCode`, or -1; message and domain are its description |
| `APIClient.ResponseEffects` | APIClient/APIClient.swift:53-83 | success: the value is delivered unchanged once, with no record and no logout; 401: the default error is recorded once, then logout with 401, and there is no completion; other failures: one record, then one failure completion carrying that same `NormalizedError`; never a dispatch |
| `APIClient.ErrorEffects` | APIClient/APIClient.swift:85-96 | one record, then one failure completion with `ThrownError(error)`; no logout whatever the code |
| `APIClient.RequestEffects` | APIClient/APIClient.swift:28-51 | a build failure dispatches nothing, never logs out, records the thrown error once and first, and delivers it once as a failure; a built request is dispatched once, first, and followed by `handleResponse`'s effects; overall, completion fires exactly once unless a logout (always with 401) happened, and then never |
| `APIClient.UnauthorizedScenario` | APIClient/APIClient.swift:66-69 | a dispatched call answered 401: no completion, one logout with 401, one record of the default error |
| `APIClient.ServerErrorScenario` | APIClient/APIClient.swift:72-81 | a dispatched call answered 404 whose body parses to a message: one failure with that message and code 404 |
| `APIClient.NoResponseScenario` | APIClient/APIClient.swift:61 | a failure with no HTTP response is delivered with code -1 and the failure's description |
| `APIClient.SerializeData` | APIClient/APIClient.swift:125 | succeeds exactly when there is no failure and the body is non-empty, or the status is in {200, 201, 204, 205}, or the method is HEAD; a failure passes through unchanged |
| `APIClient.VoidOutcome` | APIClient/APIClient.swift:123-126 | the void entry point's outcome keeps the status and body; a transport failure stays that failure; with no failure, a status in {200, 201, 204, 205} is a success |
| `APIClient.NoContentIsVoidSuccess` | APIClient/APIClient.swift:123-126 | through the void entry point, a 204 with an empty body delivers success once and records nothing |
| `APIClient.EffectLog.constructor` | APIClient/APIClient.swift:28-34 | a call starts with no effects |
| `APIClient.EffectLog.Dispatch` | APIClient/APIClient.swift:43 | appends one `Dispatch` of the request |
| `APIClient.EffectLog.Record` | APIClient/APIClient.swift:80 | appends one `Record` of the error |
| `APIClient.EffectLog.Logout` | APIClient/APIClient.swift:68 | appends one `Logout` with the status |
| `APIClient.EffectLog.Complete` | APIClient/APIClient.swift:81 | appends one `Complete` with the result |
| `APIClient.HandleResponse` | APIClient/APIClient.swift:53-83 | appends exactly `ResponseEffects(response, parseErrorData)` to the log |
| `APIClient.HandleError` | APIClient/APIClient.swift:85-96 | appends exactly `ErrorEffects(error)` to the log |
| `APIClient.RequestDecodable` | APIClient/APIClient.swift:98-106 | `request<T>` through `makeRequest` appends exactly `RequestEffects` with the decoding transport |
| `APIClient.RequestVoid` | APIClient/APIClient.swift:108-131 | the void `request` appends exactly `RequestEffects`, with the raw transport serialised by `SerializeData`: the same routing as the typed entry point |

## Left out

- Transport and asynchrony: `session.request`, `.validate()`, `responseDecodable`, the timing of callbacks and all concurrency. The transport is a function from the built request to its outcome, and each callback is an immediate log append.
- The interceptor inside the transport: Alamofire calls `adapt` before a request leaves. `Adapt` is modelled on its own and is not composed into the entry points' transport.
- JSON decoding, `APIClientHelper.customDecoder` and its date formatter. The decoded value is the transport's output.
- `URL(string:)`, `URL.appendingQueryParameters`, the percent-encoding of `URLEncoding` and the serialisation of `JSONEncoding`, `JSONEncoder` and `JSONSerialization`. All are arbitrary functions given as parameters.
- `Data.parseErrorData`, `APISupport.shared.setAuthorizationToken()` and `doLogout`: a parameter, a parameter and a log entry.
- Crashlytics: only the `Record` entry of the log.
- `debugPrint` of the request: no observable effect in the model.
- `NetworkService.swift`: the singleton, the 30-second timeout and the base URL lookup are configuration. `Client` carries the base URL string.
- The extra `nil` argument in `completion(.failure(customError), nil)` at APIClient/APIClient.swift:81 and 95 is modelled as a single failure delivery.
- The void variant passes a `Data` response to a `Result<Void, Error>` completion. Its success is modelled as delivering `()`.
- `URLRequestBuilder.BuildURLRequest`: does not model JSON encoding's "only if absent" check on Content-Type. A freshly built request has no headers, so the field is always set.
- `APIRequestInterceptor.SameFieldName`: folds ASCII letters only. Foundation's header-name comparison over non-ASCII names is not modelled.
- `APIClient.SerializeData`: models Alamofire's `responseData` only as far as the empty-body decision goes. The error for an empty body is a parameter (`zeroLengthError`).
- Header values of other Swift types are held by their string interpolation. Nested collections inside a list are held by their element's rendering.
