/** `APIRequestInterceptor.adapt`: replaces the header fields of each
    outgoing request with the session store's sanitised headers and makes
    sure a `Content-Type` is present. */
module APIRequestInterceptor {
  import opened Wrappers
  import opened Http
  import opened APIClientHelper

  /** ASCII lower-casing, the folding HTTP field names are compared under. */
  function LowerAscii(c: char): char
  {
    if 'A' <= c <= 'Z' then (c as int + 32) as char else c
  }

  /** Field names are case-insensitive (section 5.1 of RFC 9110). */
  predicate SameFieldName(a: string, b: string): (same: bool)
    ensures a == b ==> same
  {
    |a| == |b| && forall i :: 0 <= i < |a| ==> LowerAscii(a[i]) == LowerAscii(b[i])
  }

  /** `value(forHTTPHeaderField: name) != nil`: some field has that name, in any case. */
  predicate HasField(headers: map<string, string>, name: string): (present: bool)
    ensures name in headers ==> present
    ensures headers == map[] ==> !present
  {
    exists key :: key in headers && SameFieldName(key, name)
  }

  /** Matching field names is an equivalence: reflexive, symmetric and
      transitive. */
  lemma SameFieldNameIsEquivalence(a: string, b: string, c: string)
    ensures SameFieldName(a, a)
    ensures SameFieldName(a, b) ==> SameFieldName(b, a)
    ensures SameFieldName(a, b) && SameFieldName(b, c) ==> SameFieldName(a, c)
  {
  }

  /** The lookup ignores case for every name: two names that differ only in
      the case of their letters find a field in exactly the same header sets. */
  lemma LookupIgnoresCase(headers: map<string, string>, n1: string, n2: string)
    requires SameFieldName(n1, n2)
    ensures HasField(headers, n1) <==> HasField(headers, n2)
  {
    SameFieldNameIsEquivalence(n1, n2, n1);
    if HasField(headers, n1) {
      var key :| key in headers && SameFieldName(key, n1);
      SameFieldNameIsEquivalence(key, n1, n2);
    }
    if HasField(headers, n2) {
      var key :| key in headers && SameFieldName(key, n2);
      SameFieldNameIsEquivalence(key, n2, n1);
    }
  }

  /** An illustration: a `Content-Type` field stored in lower case, or in
      upper case, is found when looking up `Content-Type`. */
  lemma ContentTypeLookupIgnoresCase(value: string)
    ensures HasField(map["content-type" := value], ContentType)
    ensures HasField(map["CONTENT-TYPE" := value], ContentType)
  {
    LookupIgnoresCase(map["content-type" := value], "content-type", ContentType);
    LookupIgnoresCase(map["CONTENT-TYPE" := value], "CONTENT-TYPE", ContentType);
  }

  /** The header fields without any field named `name`, in any case. */
  function WithoutField(headers: map<string, string>, name: string): (rest: map<string, string>)
    ensures !HasField(rest, name)
    ensures forall key :: key in headers && !SameFieldName(key, name) ==> key in rest && rest[key] == headers[key]
    ensures rest.Keys <= headers.Keys
  {
    map key | key in headers && !SameFieldName(key, name) :: headers[key]
  }

  /** A `var request: URLRequest` being adapted in place. */
  class MutableURLRequest {
    var url: Url
    var httpMethod: Method
    var allHTTPHeaderFields: map<string, string>
    var httpBody: Option<Bytes>

    /** The request's current value. */
    function Value(): Request
      reads this
    {
      Request(url, httpMethod, allHTTPHeaderFields, httpBody)
    }

    constructor (request: Request)
      ensures Value() == request
    {
      url := request.url;
      httpMethod := request.httpMethod;
      allHTTPHeaderFields := request.headers;
      httpBody := request.body;
    }

    /** `value(forHTTPHeaderField:) != nil`. */
    predicate HasValue(field: string): (present: bool)
      reads this
      ensures field in allHTTPHeaderFields ==> present
      ensures allHTTPHeaderFields == map[] ==> !present
    {
      HasField(allHTTPHeaderFields, field)
    }

    /** `request.allHTTPHeaderFields = fields`: the whole header set is replaced. */
    method SetAllHTTPHeaderFields(fields: map<string, string>)
      modifies this
      ensures Value() == old(Value()).(headers := fields)
    {
      allHTTPHeaderFields := fields;
    }

    /** `setValue(_:forHTTPHeaderField:)`: any field of that name, in any case,
        is replaced by this one. */
    method SetValue(value: string, field: string)
      modifies this
      ensures Value() == old(Value()).(headers := WithoutField(old(allHTTPHeaderFields), field)[field := value])
      ensures HasValue(field)
    {
      allHTTPHeaderFields := WithoutField(allHTTPHeaderFields, field)[field := value];
      assert SameFieldName(field, field);
    }
  }

  /** The request `adapt` hands on: URL, method and body as they came, the
      header set rebuilt from the session store's headers. */
  function Adapted(urlRequest: Request, sessionHeaders: map<string, HeaderValue>): (adapted: Request)
    ensures adapted.url == urlRequest.url
    ensures adapted.httpMethod == urlRequest.httpMethod
    ensures adapted.body == urlRequest.body
    ensures HasField(Sanitized(sessionHeaders), ContentType) ==> adapted.headers == Sanitized(sessionHeaders)
    ensures !HasField(Sanitized(sessionHeaders), ContentType) ==>
      adapted.headers == Sanitized(sessionHeaders)[ContentType := ApplicationJson]
    ensures HasField(adapted.headers, ContentType)
  {
    var fields := Sanitized(sessionHeaders);
    var headers := if HasField(fields, ContentType) then fields
                   else WithoutField(fields, ContentType)[ContentType := ApplicationJson];
    assert !HasField(fields, ContentType) ==> WithoutField(fields, ContentType) == fields;
    assert SameFieldName(ContentType, ContentType);
    urlRequest.(headers := headers)
  }

  /** The headers on the incoming request play no part: two requests that
      differ only in their headers adapt to the same request. */
  lemma IncomingHeadersDiscarded(r1: Request, r2: Request, sessionHeaders: map<string, HeaderValue>)
    requires r1.(headers := r2.headers) == r2
    ensures Adapted(r1, sessionHeaders) == Adapted(r2, sessionHeaders)
  {
  }

  /** Every adapted header field is either a session entry's rendering or
      the default `Content-Type`; a nil session entry never appears. */
  lemma AdaptedFieldsComeFromSession(urlRequest: Request, sessionHeaders: map<string, HeaderValue>, key: string)
    requires key in Adapted(urlRequest, sessionHeaders).headers
    ensures key in sessionHeaders ==> !sessionHeaders[key].Nil? || key == ContentType
    ensures key !in sessionHeaders ==>
      (key == ContentType && Adapted(urlRequest, sessionHeaders).headers[key] == ApplicationJson)
  {
  }

  /** `adapt(_:for:completion:)`: always completes once, with success. The
      session store's `setAuthorizationToken()` result is the parameter
      `sessionHeaders`. */
  method Adapt(urlRequest: Request, sessionHeaders: map<string, HeaderValue>) returns (completion: Result<Request, Error>)
    ensures completion == Success(Adapted(urlRequest, sessionHeaders))
  {
    var request := new MutableURLRequest(urlRequest);
    var headerParameters := RejectNilHeaders(sessionHeaders);
    request.SetAllHTTPHeaderFields(headerParameters);
    if !request.HasValue(ContentType) {
      request.SetValue(ApplicationJson, ContentType);
    }
    completion := Success(request.Value());
  }
}
