/** The older API step definitions: one map holds both the query and the
    path parameters, the request specification is null until a base URL is
    set, and every request that goes through leaves a fresh specification
    and no parameters behind. Endpoints and bodies are sent as written. */
module LegacyApiSteps {
  import opened JavaLang
  import opened Http

  /** RestAssured's base URI before anything sets it. */
  const DefaultBaseUri: string := "http://localhost"

  /** The failure of a call on a null specification or a null response. */
  const Null: Failure := NullPointer("")

  /** The request a step sends. Only GET carries the parameters (as query
      parameters); POST and PUT carry the body as JSON; nothing can be sent
      before a specification exists. */
  function LegacyRequest(spec: Option<RequestSpec>, baseUri: string, params: map<string, string>,
                         verb: Verb, endpoint: string, body: string): (r: Result<Request>)
    ensures r.Ok? <==> spec.Some?
    ensures r.Err? ==> r.error == Null
    ensures r.Ok? ==>
      && r.value.verb == verb && r.value.baseUri == baseUri && r.value.path == endpoint
      && r.value.pathParams == map[] && r.value.file == None
      && r.value.queryParams == (if verb == Get then params else map[])
      && (r.value.body.Some? <==> verb == Post || verb == Put)
      && (r.value.body.Some? ==> r.value.body.value == body)
      && (verb == Post || verb == Put ==> r.value.spec == spec.value.(contentType := Some(JsonContentType)))
      && (verb == Get || verb == Delete ==> r.value.spec == spec.value)
  {
    if spec.None? then Err(Null)
    else
      match verb
      case Get => Ok(Request(Get, baseUri, endpoint, spec.value, params, map[], None, None))
      case Post => Ok(Request(Post, baseUri, endpoint, spec.value.(contentType := Some(JsonContentType)), map[], map[], Some(body), None))
      case Put => Ok(Request(Put, baseUri, endpoint, spec.value.(contentType := Some(JsonContentType)), map[], map[], Some(body), None))
      case Delete => Ok(Request(Delete, baseUri, endpoint, spec.value, map[], map[], None, None))
  }

  /** Whatever parameters were set, a POST, PUT or DELETE sends the same
      request. */
  lemma ParamsOnlyReachGet(spec: Option<RequestSpec>, baseUri: string, p: map<string, string>, q: map<string, string>,
                           verb: Verb, endpoint: string, body: string)
    requires verb != Get
    ensures LegacyRequest(spec, baseUri, p, verb, endpoint, body) == LegacyRequest(spec, baseUri, q, verb, endpoint, body)
  {
  }

  class ApiStepDefinitions {
    var response: Option<Response>
    /** null (None) until setBaseUrl builds one. */
    var requestSpec: Option<RequestSpec>
    /** The query and path parameters, in one map. */
    var requestParams: map<string, string>
    /** RestAssured.baseURI */
    var baseUri: string

    constructor()
      ensures response == None && requestSpec == None && requestParams == map[] && baseUri == DefaultBaseUri
    {
      response := None;
      requestSpec := None;
      requestParams := map[];
      baseUri := DefaultBaseUri;
    }

    // -------------------------------------------------------------------------
    // Request setup

    /** setBaseUrl: the base URI changes and a fresh specification replaces
        the old one, dropping its headers, cookies and token. */
    method SetBaseUrl(baseUrl: string)
      modifies this`baseUri, this`requestSpec
      ensures baseUri == baseUrl && requestSpec == Some(EmptySpec)
    {
      baseUri := baseUrl;
      requestSpec := Some(EmptySpec);
    }

    method SetHeader(header: string, value: string) returns (r: Outcome)
      modifies this`requestSpec
      ensures old(requestSpec).None? ==> r == Fail(Null) && requestSpec == None
      ensures old(requestSpec).Some? ==>
        r == Pass && requestSpec == Some(old(requestSpec).value.(headers := old(requestSpec).value.headers + [(header, value)]))
    {
      if requestSpec.None? {
        return Fail(Null);
      }
      requestSpec := Some(requestSpec.value.(headers := requestSpec.value.headers + [(header, value)]));
      return Pass;
    }

    method SetQueryParam(param: string, value: string)
      modifies this`requestParams
      ensures requestParams == old(requestParams)[param := value]
    {
      requestParams := requestParams[param := value];
    }

    /** setPathParam writes the same map as setQueryParam. */
    method SetPathParam(param: string, value: string)
      modifies this`requestParams
      ensures requestParams == old(requestParams)[param := value]
    {
      requestParams := requestParams[param := value];
    }

    /** A query and a path parameter of the same name share one slot: the
        path value set after the query value replaces it, and the query
        value is not sent at all. */
    method SharedParameterSlot(name: string, queryValue: string, pathValue: string)
      modifies this`requestParams
      ensures requestParams == old(requestParams)[name := pathValue]
      ensures name in requestParams && requestParams[name] == pathValue
    {
      SetQueryParam(name, queryValue);
      SetPathParam(name, pathValue);
    }

    method SetCookie(name: string, value: string) returns (r: Outcome)
      modifies this`requestSpec
      ensures old(requestSpec).None? ==> r == Fail(Null) && requestSpec == None
      ensures old(requestSpec).Some? ==>
        r == Pass && requestSpec == Some(old(requestSpec).value.(cookies := old(requestSpec).value.cookies + [(name, value)]))
    {
      if requestSpec.None? {
        return Fail(Null);
      }
      requestSpec := Some(requestSpec.value.(cookies := requestSpec.value.cookies + [(name, value)]));
      return Pass;
    }

    method SetBearerToken(token: string) returns (r: Outcome)
      modifies this`requestSpec
      ensures old(requestSpec).None? ==> r == Fail(Null) && requestSpec == None
      ensures old(requestSpec).Some? ==>
        r == Pass && requestSpec == Some(old(requestSpec).value.(auth := OAuth2(Some(token))))
    {
      if requestSpec.None? {
        return Fail(Null);
      }
      requestSpec := Some(requestSpec.value.(auth := OAuth2(Some(token))));
      return Pass;
    }

    /** resetRequest: a fresh specification and no parameters. */
    method ResetRequest()
      modifies this`requestSpec, this`requestParams
      ensures requestSpec == Some(EmptySpec) && requestParams == map[]
    {
      requestSpec := Some(EmptySpec);
      requestParams := map[];
    }

    // -------------------------------------------------------------------------
    // Requests

    function RequestFor(verb: Verb, endpoint: string, body: string): Result<Request>
      reads this
    {
      LegacyRequest(requestSpec, baseUri, requestParams, verb, endpoint, body)
    }

    /** After a request step: when no request can be built or the client
        throws, nothing changes; otherwise the response is kept and the
        specification and parameters are reset. The base URI stays. */
    twostate predicate Dispatched(req: Result<Request>, send: Transport, r: Outcome)
      reads this
    {
      && baseUri == old(baseUri)
      && if req.Err? then
           r == Fail(req.error) && response == old(response)
           && requestSpec == old(requestSpec) && requestParams == old(requestParams)
         else if send(req.value).None? then
           r == Fail(TransportError) && response == old(response)
           && requestSpec == old(requestSpec) && requestParams == old(requestParams)
         else
           r == Pass && response == send(req.value)
           && requestSpec == Some(EmptySpec) && requestParams == map[]
    }

    method Dispatch(verb: Verb, endpoint: string, body: string, send: Transport) returns (r: Outcome)
      modifies this`response, this`requestSpec, this`requestParams
      ensures Dispatched(old(RequestFor(verb, endpoint, body)), send, r)
    {
      var req := LegacyRequest(requestSpec, baseUri, requestParams, verb, endpoint, body);
      if req.Err? {
        return Fail(req.error);
      }
      var received := send(req.value);
      if received.None? {
        return Fail(TransportError);
      }
      response := received;
      ResetRequest();
      return Pass;
    }

    /** makeGetRequest: the parameters go out as query parameters. */
    method MakeGetRequest(endpoint: string, send: Transport) returns (r: Outcome)
      modifies this`response, this`requestSpec, this`requestParams
      ensures Dispatched(old(RequestFor(Get, endpoint, "")), send, r)
    {
      r := Dispatch(Get, endpoint, "", send);
    }

    method MakePostRequest(endpoint: string, body: string, send: Transport) returns (r: Outcome)
      modifies this`response, this`requestSpec, this`requestParams
      ensures Dispatched(old(RequestFor(Post, endpoint, body)), send, r)
    {
      r := Dispatch(Post, endpoint, body, send);
    }

    method MakePutRequest(endpoint: string, body: string, send: Transport) returns (r: Outcome)
      modifies this`response, this`requestSpec, this`requestParams
      ensures Dispatched(old(RequestFor(Put, endpoint, body)), send, r)
    {
      r := Dispatch(Put, endpoint, body, send);
    }

    method MakeDeleteRequest(endpoint: string, send: Transport) returns (r: Outcome)
      modifies this`response, this`requestSpec, this`requestParams
      ensures Dispatched(old(RequestFor(Delete, endpoint, "")), send, r)
    {
      r := Dispatch(Delete, endpoint, "", send);
    }

    // -------------------------------------------------------------------------
    // Response assertions, on the most recent response

    method ValidateStatus(statusCode: int) returns (r: Outcome)
      ensures response.None? ==> r == Fail(Null)
      ensures response.Some? ==> (r == Pass <==> response.value.statusCode == statusCode)
      ensures response.Some? && r.Fail? ==>
        r.error == AssertionFailed("Unexpected status code: " + IntToString(response.value.statusCode))
    {
      if response.None? {
        return Fail(Null);
      }
      if response.value.statusCode != statusCode {
        return Fail(AssertionFailed("Unexpected status code: " + IntToString(response.value.statusCode)));
      }
      return Pass;
    }

    method ValidateResponseBodyContains(text: string) returns (r: Outcome)
      ensures response.None? ==> r == Fail(Null)
      ensures response.Some? ==> (r == Pass <==> Contains(response.value.body, text))
      ensures response.Some? && r.Fail? ==> r.error == AssertionFailed("Response does not contain: " + text)
    {
      if response.None? {
        return Fail(Null);
      }
      if !Contains(response.value.body, text) {
        return Fail(AssertionFailed("Response does not contain: " + text));
      }
      return Pass;
    }

    method ValidateHeader(header: string, expectedValue: string) returns (r: Outcome)
      ensures response.None? ==> r == Fail(Null)
      ensures response.Some? ==>
        (r == Pass <==> ToLower(header) in response.value.headers && response.value.headers[ToLower(header)] == expectedValue)
      ensures response.Some? && r.Fail? ==> r.error == AssertionFailed("Header validation failed for: " + header)
    {
      if response.None? {
        return Fail(Null);
      }
      if HeaderOf(response.value, header) != Some(expectedValue) {
        return Fail(AssertionFailed("Header validation failed for: " + header));
      }
      return Pass;
    }

    method ValidateCookie(cookieName: string, expectedValue: string) returns (r: Outcome)
      ensures response.None? ==> r == Fail(Null)
      ensures response.Some? ==>
        (r == Pass <==> cookieName in response.value.cookies && response.value.cookies[cookieName] == expectedValue)
      ensures response.Some? && r.Fail? ==> r.error == AssertionFailed("Cookie validation failed for: " + cookieName)
    {
      if response.None? {
        return Fail(Null);
      }
      if CookieOf(response.value, cookieName) != Some(expectedValue) {
        return Fail(AssertionFailed("Cookie validation failed for: " + cookieName));
      }
      return Pass;
    }

    /** validateResponseTime: strictly below the bound. */
    method ValidateResponseTime(maxTime: int) returns (r: Outcome)
      ensures response.None? ==> r == Fail(Null)
      ensures response.Some? ==> (r == Pass <==> response.value.timeMs < maxTime)
      ensures response.Some? && r.Fail? ==>
        r.error == AssertionFailed("Response time exceeded " + IntToString(maxTime) + "ms")
    {
      if response.None? {
        return Fail(Null);
      }
      if response.value.timeMs >= maxTime {
        return Fail(AssertionFailed("Response time exceeded " + IntToString(maxTime) + "ms"));
      }
      return Pass;
    }

    method ValidateJsonPath(jsonPath: string, expectedValue: string) returns (r: Outcome)
      ensures response.None? ==> r == Fail(Null)
      ensures response.Some? ==>
        (r == Pass <==> jsonPath in response.value.jsonStrings && response.value.jsonStrings[jsonPath] == expectedValue)
      ensures response.Some? && r.Fail? ==> r.error == AssertionFailed("JSON path validation failed: " + jsonPath)
    {
      if response.None? {
        return Fail(Null);
      }
      if JsonStringOf(response.value, jsonPath) != Some(expectedValue) {
        return Fail(AssertionFailed("JSON path validation failed: " + jsonPath));
      }
      return Pass;
    }
  }
}
