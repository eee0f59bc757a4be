/**
 * Recorded transactions: a request and a response, each an HTTP message whose
 * header dictionary is private to it. The request upper-cases its method and
 * offers the nil-tolerant predicates the matchers filter on.
 */
module Transaction {
  import opened Wrappers
  import opened RubyText
  import opened RubyObjects

  /** The parts of a request URI that the core reads. */
  datatype Uri = Uri(path: string, query: Option<string>)

  /**
   * A query or body matcher: `matcher === value` is `test(value)`, and
   * `formatted` is what the object formatter prints for it.
   */
  datatype Matcher = Matcher(test: Value -> bool, formatted: string)

  /**
   * The message part shared by requests and responses: a header dictionary that
   * only this object holds, and a body. Headers are a Ruby Hash, so a name is
   * looked up exactly as spelled.
   */
  class HTTPMessage {
    var headers: map<string, string>
    var body: Option<string>

    /** The dictionary is copied in: later changes to the caller's hash do not reach the message. */
    constructor (headers: map<string, string>, body: Option<string>)
      ensures this.headers == headers && this.body == body
    {
      this.headers := headers;
      this.body := body;
    }

    /** `message[name]`: the header stored under the name, or nil. */
    function Get(name: string): Option<string>
      reads this
    {
      if name in headers then Some(headers[name]) else None
    }

    /** `message[name] = value`: only that header changes, and reading it back gives the value. */
    method Set(name: string, value: string)
      modifies this
      ensures Get(name) == Some(value)
      ensures forall other :: other != name ==> Get(other) == old(Get(other))
      ensures headers == old(headers)[name := value] && body == old(body)
    {
      headers := headers[name := value];
    }

    /** `message.headers`: a copy of the dictionary, agreeing with Get on every name. */
    function Headers(): (copy: map<string, string>)
      reads this
      ensures forall name :: Get(name) == (if name in copy then Some(copy[name]) else None)
    {
      headers
    }
  }

  class Request {
    /** The method as given, converted to a string and upper-cased. */
    const httpMethod: string
    const uri: Uri
    const message: HTTPMessage

    /** The stored method is already in upper case. */
    ghost predicate Valid()
    {
      Upcase(httpMethod) == httpMethod
    }

    constructor (httpMethod: string, uri: Uri, body: Option<string>, headers: map<string, string>)
      ensures Valid()
      ensures this.httpMethod == Upcase(httpMethod) && this.uri == uri
      ensures fresh(message) && message.headers == headers && message.body == body
    {
      this.httpMethod := Upcase(httpMethod);
      this.uri := uri;
      message := new HTTPMessage(headers, body);
      UpcaseIdempotent(httpMethod);
    }

    /** `method?(m)`: the given method, upper-cased, is the stored one. */
    predicate HasMethod(m: string)
    {
      Upcase(m) == httpMethod
    }

    /** `path`: the URI's path. */
    function Path(): string
    {
      uri.path
    }

    /** `path?(p)`: `p === path`. */
    predicate HasPath(p: Pattern, libs: Libraries)
    {
      CaseEqual(p, Some(Path()), libs)
    }

    /** `request_uri`: the path, then `?` and the query when there is one, always starting with `/`. */
    function RequestUri(): string
    {
      var target := if uri.query.Some? then uri.path + "?" + uri.query.value else uri.path;
      if |target| > 0 && target[0] == '/' then target else "/" + target
    }

    /** `request_uri?(p)`: `p === request_uri`. */
    predicate HasRequestUri(p: Pattern, libs: Libraries)
    {
      CaseEqual(p, Some(RequestUri()), libs)
    }

    /** `query`: the URI's query string parsed into a hash. */
    function Query(libs: Libraries): Value
    {
      Hash(libs.parseNestedQuery(uri.query))
    }

    /** `query?(matcher)`: true for nil, otherwise `matcher === query`. */
    predicate QueryMatches(matcher: Option<Matcher>, libs: Libraries)
    {
      matcher.None? || matcher.value.test(Query(libs))
    }

    /** What `body?` shows the matcher: the decoded body for a JSON request, else the raw body. */
    function BodySubject(libs: Libraries): Value
      reads message
    {
      if message.Get("Content-Type") == Some("application/json") then libs.decodeJson(message.body)
      else OptionalText(message.body)
    }

    /** `body?(matcher)`: true for nil, otherwise `matcher === body` on the subject above. */
    predicate BodyMatches(matcher: Option<Matcher>, libs: Libraries)
      reads message
    {
      matcher.None? || matcher.value.test(BodySubject(libs))
    }
  }

  class Response {
    const statusCode: int
    const message: HTTPMessage

    constructor (statusCode: int, body: Option<string>, headers: map<string, string>)
      ensures this.statusCode == statusCode
      ensures fresh(message) && message.headers == headers && message.body == body
    {
      this.statusCode := statusCode;
      message := new HTTPMessage(headers, body);
    }
  }

  /** One recorded exchange. */
  datatype Transaction = Transaction(request: Request, response: Response)

  /** `method?` ignores letter case: two spellings of one method match the same requests. */
  lemma HasMethodIgnoresCase(r: Request, a: string, b: string)
    requires |a| == |b|
    requires forall i :: 0 <= i < |a| ==> UpcaseChar(a[i]) == UpcaseChar(b[i])
    ensures r.HasMethod(a) <==> r.HasMethod(b)
  {
    UpcaseIgnoresCase(a, b);
  }

  /** A GET request matches :get, "Get" and "GET", and not "POST". */
  lemma GetMatchesEverySpelling(r: Request)
    requires r.httpMethod == "GET"
    ensures r.HasMethod("get") && r.HasMethod("Get") && r.HasMethod("GET")
    ensures !r.HasMethod("POST")
  {
  }

  /**
   * A request built from any spelling of a method is well formed (its stored method
   * is upper-cased) and matches both that spelling and its own stored method.
   */
  lemma ConstructedMatchesGiven(r: Request, given: string)
    requires r.httpMethod == Upcase(given)
    ensures r.Valid() && r.HasMethod(given) && r.HasMethod(r.httpMethod)
  {
    UpcaseIdempotent(given);
  }

  /** For a String pattern, `path?` is equality with the URI's path. */
  lemma HasPathLiteral(r: Request, p: string, libs: Libraries)
    ensures r.HasPath(Literal(p), libs) <==> p == r.uri.path
  {
  }

  /**
   * `request_uri` is the path when there is no query, and the path, `?` and the
   * query when there is one; a path without its leading `/` gets one.
   */
  lemma RequestUriLayout(r: Request)
    ensures r.uri.query.None? && |r.uri.path| > 0 && r.uri.path[0] == '/' ==> r.RequestUri() == r.uri.path
    ensures r.uri.query.Some? && |r.uri.path| > 0 && r.uri.path[0] == '/' ==>
              r.RequestUri() == r.uri.path + "?" + r.uri.query.value
    ensures r.RequestUri()[0] == '/'
  {
  }

  /** With Rack's parser, a request without a query string has the empty hash as its query. */
  lemma NoQueryStringIsEmptyHash(r: Request, libs: Libraries)
    requires ParsesNilQueryAsEmpty(libs) && r.uri.query.None?
    ensures r.Query(libs) == Hash([])
  {
  }

  /** Without a matcher the query and body predicates accept every request. */
  lemma NilMatchersAcceptAll(r: Request, libs: Libraries)
    ensures r.QueryMatches(None, libs) && r.BodyMatches(None, libs)
  {
  }

  /**
   * The body matcher sees the decoded body exactly when Content-Type is
   * "application/json", and the raw body otherwise.
   */
  lemma BodyMatcherSubject(r: Request, m: Matcher, libs: Libraries)
    ensures r.message.Get("Content-Type") == Some("application/json") ==>
              (r.BodyMatches(Some(m), libs) <==> m.test(libs.decodeJson(r.message.body)))
    ensures r.message.Get("Content-Type") != Some("application/json") ==>
              (r.BodyMatches(Some(m), libs) <==> m.test(OptionalText(r.message.body)))
  {
  }
}
