/** The `APIClient` protocol extension: build a request, dispatch it, and
    turn whatever comes back (or whatever the builder threw) into exactly
    one delivery to the caller, except on 401, which logs the user out
    instead. Side effects are entries of an effect log, in the order the
    source performs them. */
module APIClient {
  import opened Wrappers
  import opened Http
  import opened URLRequestBuilder

  /** The status that ends the session instead of reaching the caller. */
  const Unauthorized := 401

  /** The status codes `responseData(emptyResponseCodes:)` accepts with an empty body. */
  const EmptyResponseCodes: set<int> := {200, 201, 204, 205}

  /** What a conforming client provides: its base URL string, and the
      Foundation/Alamofire operations its `urlRequestBuilder` calls. */
  datatype Client = Client(baseString: string, foundation: Foundation)

  /** `AFDataResponse<T>` after validation and serialisation: the result,
      `response?.statusCode`, and the raw body `data`. */
  datatype Response<T> = Response(result: Result<T, Error>, statusCode: Option<int>, data: Option<Bytes>)

  /** What the data transport yields before `responseData` serialises it:
      the transport or validation failure, if any, the status and the body. */
  datatype RawResponse = RawResponse(error: Option<Error>, statusCode: Option<int>, data: Option<Bytes>)

  /** One observable side effect of a call. */
  datatype Effect<T> =
    | Dispatch(request: Request)              // `session.request(request)`
    | Record(error: ApiError)                 // `Crashlytics.crashlytics().record(error:)`
    | Logout(httpStatusCode: int)             // `APISupport.shared.doLogout(httpStatusCode:)`
    | Complete(result: Result<T, ApiError>)   // the caller's `completion`

  /** The part of one entry each filter below keeps: the entry's payload
      when it is of that kind, nothing otherwise. */
  function DispatchOf<T>(e: Effect<T>): seq<Request> { if e.Dispatch? then [e.request] else [] }
  function RecordOf<T>(e: Effect<T>): seq<ApiError> { if e.Record? then [e.error] else [] }
  function LogoutOf<T>(e: Effect<T>): seq<int> { if e.Logout? then [e.httpStatusCode] else [] }
  function CompletionOf<T>(e: Effect<T>): seq<Result<T, ApiError>> { if e.Complete? then [e.result] else [] }

  function Dispatches<T>(log: seq<Effect<T>>): seq<Request>
  {
    if log == [] then [] else DispatchOf(log[0]) + Dispatches(log[1..])
  }

  function Records<T>(log: seq<Effect<T>>): seq<ApiError>
  {
    if log == [] then [] else RecordOf(log[0]) + Records(log[1..])
  }

  function Logouts<T>(log: seq<Effect<T>>): seq<int>
  {
    if log == [] then [] else LogoutOf(log[0]) + Logouts(log[1..])
  }

  function Completions<T>(log: seq<Effect<T>>): seq<Result<T, ApiError>>
  {
    if log == [] then [] else CompletionOf(log[0]) + Completions(log[1..])
  }

  /** Each kind of effect of a log made of two parts is that kind's effects
      of the first part followed by those of the second. */
  lemma EffectsOfConcatenation<T>(a: seq<Effect<T>>, b: seq<Effect<T>>)
    ensures Dispatches(a + b) == Dispatches(a) + Dispatches(b)
    ensures Records(a + b) == Records(a) + Records(b)
    ensures Logouts(a + b) == Logouts(a) + Logouts(b)
    ensures Completions(a + b) == Completions(a) + Completions(b)
  {
    DispatchesOfConcatenation(a, b);
    RecordsOfConcatenation(a, b);
    LogoutsOfConcatenation(a, b);
    CompletionsOfConcatenation(a, b);
  }

  lemma {:induction false} DispatchesOfConcatenation<T>(a: seq<Effect<T>>, b: seq<Effect<T>>)
    ensures Dispatches(a + b) == Dispatches(a) + Dispatches(b)
    decreases |a|
  {
    if a == [] {
      assert a + b == b;
    } else {
      assert (a + b)[0] == a[0];
      assert (a + b)[1..] == a[1..] + b;
      DispatchesOfConcatenation(a[1..], b);
      assert Dispatches(a + b) == DispatchOf(a[0]) + (Dispatches(a[1..]) + Dispatches(b));
    }
  }

  lemma {:induction false} RecordsOfConcatenation<T>(a: seq<Effect<T>>, b: seq<Effect<T>>)
    ensures Records(a + b) == Records(a) + Records(b)
    decreases |a|
  {
    if a == [] {
      assert a + b == b;
    } else {
      assert (a + b)[0] == a[0];
      assert (a + b)[1..] == a[1..] + b;
      RecordsOfConcatenation(a[1..], b);
      assert Records(a + b) == RecordOf(a[0]) + (Records(a[1..]) + Records(b));
    }
  }

  lemma {:induction false} LogoutsOfConcatenation<T>(a: seq<Effect<T>>, b: seq<Effect<T>>)
    ensures Logouts(a + b) == Logouts(a) + Logouts(b)
    decreases |a|
  {
    if a == [] {
      assert a + b == b;
    } else {
      assert (a + b)[0] == a[0];
      assert (a + b)[1..] == a[1..] + b;
      LogoutsOfConcatenation(a[1..], b);
      assert Logouts(a + b) == LogoutOf(a[0]) + (Logouts(a[1..]) + Logouts(b));
    }
  }

  lemma {:induction false} CompletionsOfConcatenation<T>(a: seq<Effect<T>>, b: seq<Effect<T>>)
    ensures Completions(a + b) == Completions(a) + Completions(b)
    decreases |a|
  {
    if a == [] {
      assert a + b == b;
    } else {
      assert (a + b)[0] == a[0];
      assert (a + b)[1..] == a[1..] + b;
      CompletionsOfConcatenation(a[1..], b);
      assert Completions(a + b) == CompletionOf(a[0]) + (Completions(a[1..]) + Completions(b));
    }
  }

  /** The effects of a two-entry log, entry by entry. */
  lemma EffectsOfPair<T>(first: Effect<T>, second: Effect<T>)
    ensures Dispatches([first, second]) == Dispatches([first]) + Dispatches([second])
    ensures Records([first, second]) == Records([first]) + Records([second])
    ensures Logouts([first, second]) == Logouts([first]) + Logouts([second])
    ensures Completions([first, second]) == Completions([first]) + Completions([second])
  {
    assert [first, second] == [first] + [second];
    EffectsOfConcatenation([first], [second]);
  }

  /** `response.response?.statusCode ?? -1`. */
  function StatusCode<T>(response: Response<T>): (code: int)
    ensures response.statusCode.Some? ==> code == response.statusCode.value
    ensures response.statusCode.None? ==> code == -1
  {
    if response.statusCode.Some? then response.statusCode.value else -1
  }

  /** The server's own error text: present when the body is non-empty and
      `parseErrorData` finds a non-empty message in it. */
  predicate HasServerMessage<T>(response: Response<T>, parseErrorData: Bytes -> string): (present: bool)
    ensures present ==> response.data.Some? && |response.data.value| > 0
    ensures response.data.Some? && |response.data.value| > 0 ==>
      (present <==> parseErrorData(response.data.value) != "")
  {
    response.data.Some? && |response.data.value| > 0 && parseErrorData(response.data.value) != ""
  }

  /** The error `handleResponse` delivers for a non-401 failure. */
  function NormalizedError<T>(response: Response<T>, parseErrorData: Bytes -> string): (error: ApiError)
    requires response.result.Failure?
    ensures error.code == (if response.statusCode.Some? then response.statusCode.value else -1)
    ensures error.domain == error.message
    ensures HasServerMessage(response, parseErrorData) ==> error.message == parseErrorData(response.data.value)
    ensures !HasServerMessage(response, parseErrorData) ==> error.message == response.result.error.localizedDescription
  {
    if HasServerMessage(response, parseErrorData)
    then ApiError(parseErrorData(response.data.value), StatusCode(response), parseErrorData(response.data.value))
    else ApiError(response.result.error.localizedDescription, StatusCode(response), response.result.error.localizedDescription)
  }

  /** The error `handleError` delivers for an error thrown before dispatch. */
  function ThrownError(error: Error): (normalized: ApiError)
    ensures normalized.code == (if error.responseCode.Some? then error.responseCode.value else -1)
    ensures normalized.message == error.localizedDescription && normalized.domain == error.localizedDescription
  {
    ApiError(error.localizedDescription, if error.responseCode.Some? then error.responseCode.value else -1,
             error.localizedDescription)
  }

  /** The effects of `handleResponse`. */
  function ResponseEffects<T>(response: Response<T>, parseErrorData: Bytes -> string): (effects: seq<Effect<T>>)
    ensures Dispatches(effects) == []
    // success: the value, unchanged, delivered once; nothing recorded, no logout
    ensures response.result.Success? ==>
      Completions(effects) == [Success(response.result.value)] && Records(effects) == [] && Logouts(effects) == []
    // 401: the default error recorded, then logout with 401; no delivery at all
    ensures response.result.Failure? && StatusCode(response) == Unauthorized ==>
      && Records(effects) == [ApiError(response.result.error.localizedDescription, Unauthorized,
                                       response.result.error.localizedDescription)]
      && Logouts(effects) == [Unauthorized]
      && Completions(effects) == []
      && effects[0].Record?
    // any other failure: one record, then one delivery of that same error
    ensures response.result.Failure? && StatusCode(response) != Unauthorized ==>
      && Records(effects) == [NormalizedError(response, parseErrorData)]
      && Completions(effects) == [Failure(NormalizedError(response, parseErrorData))]
      && Logouts(effects) == []
      && effects[0].Record?
  {
    match response.result
    case Success(value) => [Complete(Success(value))]
    case Failure(failure) =>
      var statusCode := StatusCode(response);
      if statusCode == Unauthorized then
        var defaultError := ApiError(failure.localizedDescription, statusCode, failure.localizedDescription);
        EffectsOfPair<T>(Record(defaultError), Logout(statusCode));
        [Record(defaultError), Logout(statusCode)]
      else
        var customError := NormalizedError(response, parseErrorData);
        EffectsOfPair<T>(Record(customError), Complete(Failure(customError)));
        [Record(customError), Complete(Failure(customError))]
  }

  /** The effects of `handleError`: recorded once, delivered once, never a
      logout, whatever code the error carries. */
  function ErrorEffects<T>(error: Error): (effects: seq<Effect<T>>)
    ensures Dispatches(effects) == [] && Logouts(effects) == []
    ensures Records(effects) == [ThrownError(error)]
    ensures Completions(effects) == [Failure(ThrownError(error))]
    ensures effects[0].Record?
  {
    EffectsOfPair<T>(Record(ThrownError(error)), Complete(Failure(ThrownError(error))));
    [Record(ThrownError(error)), Complete(Failure(ThrownError(error)))]
  }

  /** The routing shared by both `request` entry points: build; on a throw,
      `handleError` and no dispatch; otherwise dispatch and `handleResponse`
      on what `outcome` yields for the built request. */
  function RequestEffects<T>(client: Client, path: string, parameters: Params,
                             queryParameters: Option<map<string, string>>, httpMethod: Method,
                             outcome: Request -> Response<T>, parseErrorData: Bytes -> string)
    : (effects: seq<Effect<T>>)
    ensures var built := BuildURLRequest(client.foundation, client.baseString, path, httpMethod, parameters, queryParameters);
      && (built.Failure? ==>
            && Dispatches(effects) == []
            && Logouts(effects) == []
            && Records(effects) == [ThrownError(Thrown(client.foundation, built.error))]
            && Completions(effects) == [Failure(ThrownError(Thrown(client.foundation, built.error)))]
            && effects[0].Record?)
      && (built.Success? ==>
            && Dispatches(effects) == [built.value]
            && effects[0] == Dispatch(built.value)
            && effects[1..] == ResponseEffects(outcome(built.value), parseErrorData)
            && Records(effects) == Records(ResponseEffects(outcome(built.value), parseErrorData))
            && Logouts(effects) == Logouts(ResponseEffects(outcome(built.value), parseErrorData))
            && Completions(effects) == Completions(ResponseEffects(outcome(built.value), parseErrorData)))
    // completion fires exactly once, except after a logout, which only a 401 causes
    ensures Logouts(effects) == [] || Logouts(effects) == [Unauthorized]
    ensures |Completions(effects)| == (if Logouts(effects) == [] then 1 else 0)
  {
    match BuildURLRequest(client.foundation, client.baseString, path, httpMethod, parameters, queryParameters)
    case Failure(e) => ErrorEffects(Thrown(client.foundation, e))
    case Success(request) =>
      var effects := [Dispatch(request)] + ResponseEffects(outcome(request), parseErrorData);
      EffectsOfConcatenation([Dispatch(request)], ResponseEffects(outcome(request), parseErrorData));
      assert effects[1..] == ResponseEffects(outcome(request), parseErrorData);
      effects
  }

  /** A dispatched call answered 401: no delivery, one logout with 401,
      and the transport failure's description recorded once. */
  lemma UnauthorizedScenario<T>(client: Client, path: string, parameters: Params,
                                queryParameters: Option<map<string, string>>, httpMethod: Method,
                                outcome: Request -> Response<T>, parseErrorData: Bytes -> string,
                                request: Request, failure: Error, data: Option<Bytes>)
    requires BuildURLRequest(client.foundation, client.baseString, path, httpMethod, parameters, queryParameters) == Success(request)
    requires outcome(request) == Response(Failure(failure), Some(401), data)
    ensures var effects := RequestEffects(client, path, parameters, queryParameters, httpMethod, outcome, parseErrorData);
      && Completions(effects) == []
      && Logouts(effects) == [401]
      && Records(effects) == [ApiError(failure.localizedDescription, 401, failure.localizedDescription)]
  {
  }

  /** A dispatched call answered 404 with a body the server's error parser
      reads as `message`: one failure carrying that message and 404. */
  lemma ServerErrorScenario<T>(client: Client, path: string, parameters: Params,
                               queryParameters: Option<map<string, string>>, httpMethod: Method,
                               outcome: Request -> Response<T>, parseErrorData: Bytes -> string,
                               request: Request, failure: Error, data: Bytes, message: string)
    requires BuildURLRequest(client.foundation, client.baseString, path, httpMethod, parameters, queryParameters) == Success(request)
    requires outcome(request) == Response(Failure(failure), Some(404), Some(data))
    requires |data| > 0 && parseErrorData(data) == message && message != ""
    ensures var effects := RequestEffects(client, path, parameters, queryParameters, httpMethod, outcome, parseErrorData);
      && Completions(effects) == [Failure(ApiError(message, 404, message))]
      && Logouts(effects) == []
  {
  }

  /** A pure transport failure, with no HTTP response, is delivered with code -1. */
  lemma NoResponseScenario<T>(client: Client, path: string, parameters: Params,
                              queryParameters: Option<map<string, string>>, httpMethod: Method,
                              outcome: Request -> Response<T>, parseErrorData: Bytes -> string,
                              request: Request, failure: Error)
    requires BuildURLRequest(client.foundation, client.baseString, path, httpMethod, parameters, queryParameters) == Success(request)
    requires outcome(request) == Response(Failure(failure), None, None)
    ensures var effects := RequestEffects(client, path, parameters, queryParameters, httpMethod, outcome, parseErrorData);
      && Completions(effects) == [Failure(ApiError(failure.localizedDescription, -1, failure.localizedDescription))]
  {
  }

  /** `responseData(emptyResponseCodes: [200, 201, 204, 205])`: a failure
      passes through; an empty or missing body is accepted only for those
      statuses (or a HEAD request) and fails with `zeroLengthError`
      otherwise; the value delivered on success is `()`. */
  function SerializeData(raw: RawResponse, httpMethod: Method, zeroLengthError: Error): (response: Response<()>)
    ensures response.statusCode == raw.statusCode && response.data == raw.data
    ensures response.result.Success? <==>
      && raw.error.None?
      && ((raw.data.Some? && |raw.data.value| > 0)
          || httpMethod == HEAD
          || (raw.statusCode.Some? && raw.statusCode.value in EmptyResponseCodes))
    ensures raw.error.Some? ==> response.result == Failure(raw.error.value)
    ensures raw.error.None? && response.result.Failure? ==> response.result.error == zeroLengthError
  {
    var emptyBody := raw.data.None? || |raw.data.value| == 0;
    var emptyAllowed := httpMethod == HEAD || (raw.statusCode.Some? && raw.statusCode.value in EmptyResponseCodes);
    var result: Result<(), Error> :=
      if raw.error.Some? then Failure(raw.error.value)
      else if emptyBody && !emptyAllowed then Failure(zeroLengthError)
      else Success(());
    Response(result, raw.statusCode, raw.data)
  }

  /** The outcome the void entry point feeds to `handleResponse` for a built request. */
  function VoidOutcome(transport: Request -> RawResponse, zeroLengthError: Error): (outcome: Request -> Response<()>)
    ensures forall request :: outcome(request).statusCode == transport(request).statusCode
    ensures forall request :: outcome(request).data == transport(request).data
    ensures forall request :: transport(request).error.Some? ==>
      outcome(request).result == Failure(transport(request).error.value)
    ensures forall request ::
      (transport(request).error.None? && transport(request).statusCode.Some? &&
       transport(request).statusCode.value in EmptyResponseCodes) ==> outcome(request).result == Success(())
  {
    request => SerializeData(transport(request), request.httpMethod, zeroLengthError)
  }

  /** A 204 with no body is a success of the void entry point. */
  lemma NoContentIsVoidSuccess(client: Client, path: string, parameters: Params,
                               queryParameters: Option<map<string, string>>, httpMethod: Method,
                               transport: Request -> RawResponse, zeroLengthError: Error,
                               parseErrorData: Bytes -> string)
    requires BuildURLRequest(client.foundation, client.baseString, path, httpMethod, parameters, queryParameters).Success?
    requires var request := BuildURLRequest(client.foundation, client.baseString, path, httpMethod, parameters, queryParameters).value;
      transport(request) == RawResponse(None, Some(204), Some([]))
    ensures Completions(RequestEffects(client, path, parameters, queryParameters, httpMethod,
                                       VoidOutcome(transport, zeroLengthError), parseErrorData)) == [Success(())]
    ensures Records(RequestEffects(client, path, parameters, queryParameters, httpMethod,
                                   VoidOutcome(transport, zeroLengthError), parseErrorData)) == []
  {
    var effects := RequestEffects(client, path, parameters, queryParameters, httpMethod,
                                  VoidOutcome(transport, zeroLengthError), parseErrorData);
    EffectsOfConcatenation([effects[0]], effects[1..]);
    assert [effects[0]] + effects[1..] == effects;
  }

  /** The callbacks of one call, recorded in the order they happen. */
  class EffectLog<T> {
    var entries: seq<Effect<T>>

    constructor ()
      ensures entries == []
    {
      entries := [];
    }

    method Dispatch(request: Request)
      modifies this
      ensures entries == old(entries) + [Effect.Dispatch(request)]
    {
      entries := entries + [Effect.Dispatch(request)];
    }

    method Record(error: ApiError)
      modifies this
      ensures entries == old(entries) + [Effect.Record(error)]
    {
      entries := entries + [Effect.Record(error)];
    }

    method Logout(httpStatusCode: int)
      modifies this
      ensures entries == old(entries) + [Effect.Logout(httpStatusCode)]
    {
      entries := entries + [Effect.Logout(httpStatusCode)];
    }

    method Complete(result: Result<T, ApiError>)
      modifies this
      ensures entries == old(entries) + [Effect.Complete(result)]
    {
      entries := entries + [Effect.Complete(result)];
    }
  }

  /** `handleResponse(response:completion:)`. */
  method HandleResponse<T>(response: Response<T>, parseErrorData: Bytes -> string, log: EffectLog<T>)
    modifies log
    ensures log.entries == old(log.entries) + ResponseEffects(response, parseErrorData)
  {
    match response.result {
      case Success(value) =>
        log.Complete(Success(value));
      case Failure(failure) =>
        var statusCode := if response.statusCode.Some? then response.statusCode.value else -1;
        var userInfo := failure.localizedDescription;
        var customError := ApiError(failure.localizedDescription, statusCode, userInfo);
        if statusCode == Unauthorized {
          log.Record(customError);
          log.Logout(statusCode);
          return;
        }
        if response.data.Some? && |response.data.value| > 0 {
          var apiError := parseErrorData(response.data.value);
          if apiError != "" {
            userInfo := apiError;
            customError := ApiError(apiError, statusCode, userInfo);
          }
        }
        log.Record(customError);
        log.Complete(Failure(customError));
    }
  }

  /** `handleError(error:completion:)`. */
  method HandleError<T>(error: Error, log: EffectLog<T>)
    modifies log
    ensures log.entries == old(log.entries) + ErrorEffects(error)
  {
    var userInfo := error.localizedDescription;
    var customError := ApiError(error.localizedDescription,
                                if error.responseCode.Some? then error.responseCode.value else -1, userInfo);
    log.Record(customError);
    log.Complete(Failure(customError));
  }

  /** `makeRequest`, reached through `request<T: Decodable>`: `transport`
      stands for `session.request(_).validate().responseDecodable(of:decoder:)`. */
  method RequestDecodable<T>(client: Client, path: string, parameters: Params,
                             queryParameters: Option<map<string, string>>, httpMethod: Method,
                             transport: Request -> Response<T>, parseErrorData: Bytes -> string,
                             log: EffectLog<T>)
    modifies log
    ensures log.entries == old(log.entries) +
      RequestEffects(client, path, parameters, queryParameters, httpMethod, transport, parseErrorData)
  {
    var built := BuildURLRequest(client.foundation, client.baseString, path, httpMethod, parameters, queryParameters);
    match built {
      case Failure(e) =>
        HandleError(Thrown(client.foundation, e), log);
      case Success(request) =>
        log.Dispatch(request);
        HandleResponse(transport(request), parseErrorData, log);
    }
  }

  /** The void `request`: `transport` stands for
      `session.request(_).validate()` up to the raw data, which
      `responseData(emptyResponseCodes:)` then serialises. */
  method RequestVoid(client: Client, path: string, parameters: Params,
                     queryParameters: Option<map<string, string>>, httpMethod: Method,
                     transport: Request -> RawResponse, zeroLengthError: Error,
                     parseErrorData: Bytes -> string, log: EffectLog<()>)
    modifies log
    ensures log.entries == old(log.entries) +
      RequestEffects(client, path, parameters, queryParameters, httpMethod,
                     VoidOutcome(transport, zeroLengthError), parseErrorData)
  {
    var built := BuildURLRequest(client.foundation, client.baseString, path, httpMethod, parameters, queryParameters);
    match built {
      case Failure(e) =>
        HandleError(Thrown(client.foundation, e), log);
      case Success(request) =>
        log.Dispatch(request);
        var response := SerializeData(transport(request), request.httpMethod, zeroLengthError);
        assert response == VoidOutcome(transport, zeroLengthError)(request);
        HandleResponse(response, parseErrorData, log);
    }
  }
}
