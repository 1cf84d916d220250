/** `URLRequestBuilder.buildURLRequest`: from base URL, path, method and
    parameters to one `URLRequest`, or the error it throws. */
module URLRequestBuilder {
  import opened Wrappers
  import opened Http

  /** The Foundation and Alamofire operations the builder calls. Their
      internals (URL parsing, percent-encoding, JSON serialisation) are not
      modelled: each is an arbitrary function the builder is given. */
  datatype Foundation = Foundation(
    // `URL(string:)`: `None` when the string does not parse.
    parseURL: string -> Option<Url>,
    // `URL.appendingQueryParameters(_:)`.
    appendingQueryParameters: (Url, map<string, string>) -> Url,
    // `URLEncoding.default` on a GET request: the parameters go into the URL's query.
    urlEncodedQuery: (Url, Params) -> Result<Url, Error>,
    // `JSONEncoding.default`: the parameters serialised as the request body.
    jsonBody: Params -> Result<Bytes, Error>,
    // `AFError.invalidURL(url:).localizedDescription`.
    describeInvalidURL: string -> string)

  /** What `buildURLRequest` throws. */
  datatype BuildError =
    | InvalidURL(url: string)       // `AFError.invalidURL(url:)`
    | EncodingFailed(cause: Error)  // whatever the parameter encoder throws

  /** The thrown error as `handleError` sees it. `AFError.responseCode` is
      only set for a response validation failure, so an invalid URL has none. */
  function Thrown(f: Foundation, e: BuildError): (error: Error)
    ensures e.InvalidURL? ==> error.responseCode.None?
    ensures e.EncodingFailed? ==> error == e.cause
  {
    match e
    case InvalidURL(url) => Error(f.describeInvalidURL(url), None)
    case EncodingFailed(cause) => cause
  }

  /** `buildURLRequest(for:path:method:parameters:queryParameters:)`. */
  function BuildURLRequest(f: Foundation, baseURL: string, path: string, httpMethod: Method,
                           parameters: Params, queryParameters: Option<map<string, string>>)
    : (r: Result<Request, BuildError>)
    // the URL string is the verbatim concatenation, and only it decides InvalidURL
    ensures f.parseURL(baseURL + path).None? <==> r == Failure(InvalidURL(baseURL + path))
    ensures r.Success? ==> r.value.httpMethod == httpMethod
    ensures f.parseURL(baseURL + path).Some? ==>
      var parsed := f.parseURL(baseURL + path).value;
      var url := if queryParameters.Some? then f.appendingQueryParameters(parsed, queryParameters.value) else parsed;
      if httpMethod == GET then
        // URL encoding only: the body stays empty, the parameters go to the query
        && (r.Success? <==> f.urlEncodedQuery(url, parameters).Success?)
        && (r.Success? ==> Success(r.value.url) == f.urlEncodedQuery(url, parameters)
                           && r.value.body.None? && r.value.headers == map[])
        && (r.Failure? ==> r.error == EncodingFailed(f.urlEncodedQuery(url, parameters).error))
      else
        // JSON encoding only: the URL keeps just the explicit query
        && (r.Success? <==> f.jsonBody(parameters).Success?)
        && (r.Success? ==> r.value.url == url && r.value.body == Some(f.jsonBody(parameters).value)
                           && r.value.headers == map[ContentType := ApplicationJson])
        && (r.Failure? ==> r.error == EncodingFailed(f.jsonBody(parameters).error))
  {
    var finalPath := baseURL + path;
    match f.parseURL(finalPath)
    case None => Failure(InvalidURL(finalPath))
    case Some(parsed) =>
      var url := if queryParameters.Some? then f.appendingQueryParameters(parsed, queryParameters.value) else parsed;
      var request := Request(url, httpMethod, map[], None);
      if httpMethod == GET then
        match f.urlEncodedQuery(request.url, parameters)
        case Failure(cause) => Failure(EncodingFailed(cause))
        case Success(encodedURL) => Success(request.(url := encodedURL))
      else
        match f.jsonBody(parameters)
        case Failure(cause) => Failure(EncodingFailed(cause))
        case Success(body) =>
          Success(request.(body := Some(body), headers := request.headers[ContentType := ApplicationJson]))
  }

  /** Without query parameters the URL of a non-GET request is exactly the
      parsed concatenation. */
  lemma NoQueryKeepsParsedURL(f: Foundation, baseURL: string, path: string, httpMethod: Method, parameters: Params)
    requires httpMethod != GET
    requires BuildURLRequest(f, baseURL, path, httpMethod, parameters, None).Success?
    ensures Some(BuildURLRequest(f, baseURL, path, httpMethod, parameters, None).value.url) == f.parseURL(baseURL + path)
  {
  }

  /** The encoding depends on the method only through "is it GET": two
      non-GET methods build the same request apart from the method. */
  lemma EncodingChosenByMethodAlone(f: Foundation, baseURL: string, path: string, m1: Method, m2: Method,
                                    parameters: Params, queryParameters: Option<map<string, string>>)
    requires m1 != GET && m2 != GET
    ensures var r1 := BuildURLRequest(f, baseURL, path, m1, parameters, queryParameters);
            var r2 := BuildURLRequest(f, baseURL, path, m2, parameters, queryParameters);
            (r1.Failure? <==> r2.Failure?) &&
            (r1.Failure? ==> r1.error == r2.error) &&
            (r1.Success? ==> r1.value.(httpMethod := m2) == r2.value)
  {
  }
}
