/** The HTTP layer the API steps talk to, reduced to data: what a request
    carries, what a response offers to the assertions, and the client itself
    as a function from request to response. */
module Http {
  import opened JavaLang

  /** A received response: status line, headers, cookies, body text, elapsed
      time, the string projection of its JSON paths (a path missing from the
      map reads as null) and the text its toString() gives. Header names are
      case-insensitive, so the headers are keyed by their lower-case name. */
  datatype Response = Response(
    statusCode: int,
    headers: map<string, string>,
    cookies: map<string, string>,
    body: string,
    timeMs: int,
    jsonStrings: map<string, string>,
    objectText: string)

  /** How a request authenticates: from its specification only, or with a
      pre-emptive OAuth 2 bearer token (None is a null token). */
  datatype Auth = NoAuth | OAuth2(token: Option<string>)

  const JsonContentType: string := "application/json"

  /** A RestAssured request specification: content type, the headers and
      cookies added so far (in order), and the authentication scheme. */
  datatype RequestSpec = RequestSpec(
    contentType: Option<string>,
    headers: seq<(string, string)>,
    cookies: seq<(string, string)>,
    auth: Auth)

  /** new RequestSpecBuilder().build() */
  const EmptySpec: RequestSpec := RequestSpec(None, [], [], NoAuth)

  /** new RequestSpecBuilder().setContentType(ContentType.JSON).build() */
  const JsonSpec: RequestSpec := RequestSpec(Some(JsonContentType), [], [], NoAuth)

  datatype Verb = Get | Post | Put | Delete

  /** Everything a step hands to the client for one call. */
  datatype Request = Request(
    verb: Verb,
    baseUri: string,
    path: string,
    spec: RequestSpec,
    queryParams: map<string, string>,
    pathParams: map<string, string>,
    body: Option<string>,
    file: Option<string>)

  /** The client: None stands for an exception raised while sending. */
  type Transport = Request -> Option<Response>

  /** Response.getHeader / getCookie / jsonPath().getString: null when absent.
      A header is found whatever the case of the name asked for. */
  function HeaderOf(r: Response, name: string): (v: Option<string>)
    ensures v.Some? <==> ToLower(name) in r.headers
    ensures v.Some? ==> v.value == r.headers[ToLower(name)]
  {
    var key := ToLower(name);
    if key in r.headers then Some(r.headers[key]) else None
  }

  /** Two names that differ only in ASCII case read the same header. */
  lemma HeaderNamesIgnoreCase(r: Response, a: string, b: string)
    requires ToLower(a) == ToLower(b)
    ensures HeaderOf(r, a) == HeaderOf(r, b)
  {
  }

  function CookieOf(r: Response, name: string): (v: Option<string>)
    ensures v.Some? <==> name in r.cookies
    ensures v.Some? ==> v.value == r.cookies[name]
  {
    if name in r.cookies then Some(r.cookies[name]) else None
  }

  function JsonStringOf(r: Response, path: string): (v: Option<string>)
    ensures v.Some? <==> path in r.jsonStrings
    ensures v.Some? ==> v.value == r.jsonStrings[path]
  {
    if path in r.jsonStrings then Some(r.jsonStrings[path]) else None
  }
}
