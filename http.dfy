/** The Foundation and Alamofire value types the client passes around:
    HTTP methods, URLs, requests, the errors it receives and the single
    error shape it hands to its callers. */
module Http {
  import opened Wrappers

  type Bytes = seq<bv8>

  /** Alamofire's `HTTPMethod`: a struct around its raw value, compared by that value. */
  datatype Method = Method(rawValue: string)

  const GET := Method("GET")
  const HEAD := Method("HEAD")

  /** The header field every request ends up with, and its default value. */
  const ContentType := "Content-Type"
  const ApplicationJson := "application/json"

  /** A parsed `URL`, identified by its absolute string. */
  datatype Url = Url(absoluteString: string)

  /** A JSON-compatible parameter value (`Any` inside `[String: Any]`). */
  datatype Json =
    | JNull
    | JBool(b: bool)
    | JNumber(n: int)
    | JString(s: string)
    | JArray(items: seq<Json>)
    | JObject(members: seq<(string, Json)>)

  /** The body parameters of a call, `[String: Any]`. */
  type Params = map<string, Json>

  /** A `URLRequest`: URL, method, header fields and optional body. */
  datatype Request = Request(url: Url, httpMethod: Method, headers: map<string, string>, body: Option<Bytes>)

  /** A thrown or delivered Swift `Error` as this client reads it: its
      `localizedDescription`, and `(error as? AFError)?.responseCode`. */
  datatype Error = Error(localizedDescription: string, responseCode: Option<int>)

  /** The `NSError` the client builds for its callers: a domain, a code and
      the `NSLocalizedDescriptionKey` entry of its user info. */
  datatype ApiError = ApiError(domain: string, code: int, message: string)
}
