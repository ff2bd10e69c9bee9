/** The REST steps of com.github.qaPaschalE: a step object that accumulates a
    request (specification, query and path parameters), resolves placeholders
    in endpoints and bodies, sends the request through the client, stores the
    response in its own field and in the scenario context, and asserts on the
    response. */
module ApiSteps {
  import opened JavaLang
  import opened Http
  import opened ConfigLoader
  import opened ScenarioContexts
  import opened Placeholders

  /** resolveRequestBody: only the inline source is supported, in any letter
      case; an inline body is resolved like an endpoint and must then be
      accepted as JSON. */
  function RequestBody(env: Env, rnd: Entropy, isJson: string -> bool, source: string, body: string): (r: Result<string>)
    ensures r.Ok? <==>
      ToLower(source) == "inline" && Resolve(env, rnd, body).Ok? && isJson(Resolve(env, rnd, body).value)
    ensures r.Ok? ==> r == Resolve(env, rnd, body)
    ensures ToLower(source) != "inline" ==> r == Err(IllegalArgument("Unsupported source: " + source))
    ensures ToLower(source) == "inline" && Resolve(env, rnd, body).Err? ==> r == Resolve(env, rnd, body)
    ensures ToLower(source) == "inline" && Resolve(env, rnd, body).Ok? && !isJson(Resolve(env, rnd, body).value) ==>
      r == Err(IllegalArgument("Invalid JSON: " + Resolve(env, rnd, body).value))
  {
    if ToLower(source) != "inline" then Err(IllegalArgument("Unsupported source: " + source))
    else
      var v :- Resolve(env, rnd, body);
      if isJson(v) then Ok(v) else Err(IllegalArgument("Invalid JSON: " + v))
  }

  /** "Inline" (the implicit source of the plain POST step) is the inline
      source, while the "config" and "file" sources the step documentation
      mentions are rejected. */
  lemma BodySources(env: Env, rnd: Entropy, isJson: string -> bool, body: string)
    ensures RequestBody(env, rnd, isJson, "Inline", body) == RequestBody(env, rnd, isJson, "inline", body)
    ensures RequestBody(env, rnd, isJson, "file", body) == Err(IllegalArgument("Unsupported source: file"))
    ensures RequestBody(env, rnd, isJson, "config", body) == Err(IllegalArgument("Unsupported source: config"))
  {
    assert ToLower("Inline") == "inline";
    var file, config := "file", "config";
    assert ToLower(file) != "inline" by { assert |ToLower(file)| == 4; }
    assert RequestBody(env, rnd, isJson, file, body) == Err(IllegalArgument("Unsupported source: " + file));
    assert "Unsupported source: " + file == "Unsupported source: file";
    assert ToLower(config) != "inline" by { assert |ToLower(config)| == 6 && ToLower(config)[0] == 'c'; }
    assert RequestBody(env, rnd, isJson, config, body) == Err(IllegalArgument("Unsupported source: " + config));
    assert "Unsupported source: " + config == "Unsupported source: config";
  }

  /** The token the POST and DELETE steps with a stored token send: the value
      stored under the key, cast to String, neither null nor empty. */
  function StoredToken(context: map<string, Value>, tokenKey: string): (r: Result<string>)
    ensures Lookup(context, tokenKey).Err? ==> r == Err(Lookup(context, tokenKey).error)
    ensures r.Ok? <==>
      Lookup(context, tokenKey).Ok? && Lookup(context, tokenKey).value.Str? && Lookup(context, tokenKey).value.s != ""
    ensures r.Ok? ==> Lookup(context, tokenKey) == Ok(Str(r.value))
    ensures Lookup(context, tokenKey) == Ok(Null) || Lookup(context, tokenKey) == Ok(Str("")) ==>
      r == Err(IllegalState("Stored token '" + tokenKey + "' is null or empty."))
    ensures Lookup(context, tokenKey).Ok? && (Lookup(context, tokenKey).value.Resp? || Lookup(context, tokenKey).value.Other?) ==>
      r == Err(ClassCast)
  {
    var v :- Lookup(context, tokenKey);
    match v
    case Null => Err(IllegalState("Stored token '" + tokenKey + "' is null or empty."))
    case Str(t) => if t == "" then Err(IllegalState("Stored token '" + tokenKey + "' is null or empty.")) else Ok(t)
    case _ => Err(ClassCast)
  }

  /** The token the GET step with a stored token sends: the value stored under
      the key, cast to String, with no check (None is a null token). */
  function UncheckedToken(context: map<string, Value>, tokenKey: string): (r: Result<Option<string>>)
    ensures Lookup(context, tokenKey).Err? ==> r == Err(Lookup(context, tokenKey).error)
    ensures Lookup(context, tokenKey) == Ok(Null) ==> r == Ok(None)
    ensures r.Ok? && r.value.Some? ==> Lookup(context, tokenKey) == Ok(Str(r.value.value))
    ensures Lookup(context, tokenKey).Ok? && Lookup(context, tokenKey).value.Str? ==>
      r == Ok(Some(Lookup(context, tokenKey).value.s))
    ensures Lookup(context, tokenKey).Ok? && (Lookup(context, tokenKey).value.Resp? || Lookup(context, tokenKey).value.Other?) ==>
      r == Err(ClassCast)
  {
    var v :- Lookup(context, tokenKey);
    match v
    case Null => Ok(None)
    case Str(t) => Ok(Some(t))
    case _ => Err(ClassCast)
  }

  /** The GET step sends every token the POST and DELETE steps accept, and
      also the null and empty tokens they refuse. */
  lemma GetTokenIsUnchecked(context: map<string, Value>, tokenKey: string)
    ensures StoredToken(context, tokenKey).Ok? ==>
      UncheckedToken(context, tokenKey) == Ok(Some(StoredToken(context, tokenKey).value))
    ensures StoredToken(context, tokenKey).Err? && StoredToken(context, tokenKey).error.IllegalState? ==>
      UncheckedToken(context, tokenKey) == Ok(None) || UncheckedToken(context, tokenKey) == Ok(Some(""))
    ensures StoredToken(context, tokenKey).Err? && !StoredToken(context, tokenKey).error.IllegalState? ==>
      UncheckedToken(context, tokenKey) == Err(StoredToken(context, tokenKey).error)
  {
  }

  /** The text storeResponseField stores: the string at the JSON path of the
      last response in the context, which must be present and non-empty. */
  function ResponseField(context: map<string, Value>, jsonPath: string): (r: Result<string>)
    ensures ResponseOf(context).Err? ==> r == Err(ResponseOf(context).error)
    ensures ResponseOf(context).Ok? ==>
      (r.Ok? <==> JsonStringOf(ResponseOf(context).value, jsonPath).Some?
                  && JsonStringOf(ResponseOf(context).value, jsonPath).value != "")
    ensures r.Ok? ==> JsonStringOf(ResponseOf(context).value, jsonPath) == Some(r.value) && r.value != ""
    ensures ResponseOf(context).Ok? && r.Err? ==>
      r.error == IllegalArgument("No value found in response for JSON path: " + jsonPath)
  {
    var resp :- ResponseOf(context);
    match JsonStringOf(resp, jsonPath)
    case Some(v) =>
      if v == "" then Err(IllegalArgument("No value found in response for JSON path: " + jsonPath)) else Ok(v)
    case None => Err(IllegalArgument("No value found in response for JSON path: " + jsonPath))
  }

  /** A field stored under a key other than "lastApiResponse" can be read
      back under that key, and the last response is still there to store
      further fields from. */
  lemma StoredFieldReadsBack(context: map<string, Value>, jsonPath: string, key: string)
    requires ResponseField(context, jsonPath).Ok?
    requires !IsBlank(key) && key != LastApiResponse
    ensures Lookup(context[key := Str(ResponseField(context, jsonPath).value)], key)
         == Ok(Str(ResponseField(context, jsonPath).value))
    ensures ResponseField(context[key := Str(ResponseField(context, jsonPath).value)], jsonPath)
         == ResponseField(context, jsonPath)
  {
    var v := Str(ResponseField(context, jsonPath).value);
    KeysAreNotTrimmed(context, key, LastApiResponse, v);
  }

  /** The NullPointerException thrown when an assertion reads the response
      field before any request was sent (the JVM's message is not kept). */
  const NoResponse: Failure := NullPointer("")

  class ApiStepDefinitions {
    /** The last response this step object received (null before the first). */
    var response: Option<Response>
    var requestSpec: RequestSpec
    var queryParams: map<string, string>
    var pathParams: map<string, string>
    /** RestAssured.baseURI, the client's global base URI. */
    var baseUri: string
    const scenarioContext: ScenarioContext
    /** The loaded config.properties. */
    const config: Properties
    /** Whether Jackson's ObjectMapper.readTree accepts a text. */
    const isJson: string -> bool

    /** The request state right after construction or after a reset, apart
        from the specification. */
    predicate NoParams()
      reads this
    {
      queryParams == map[] && pathParams == map[]
    }

    /** The response field and the context's last response are the same. */
    predicate Synced()
      reads this, scenarioContext
    {
      response.Some? && ResponseOf(scenarioContext.context) == Ok(response.value)
    }

    constructor(scenarioContext: ScenarioContext, config: Properties, isJson: string -> bool)
      requires GetApiBaseUrl(config).Ok?
      ensures this.scenarioContext == scenarioContext && this.config == config && this.isJson == isJson
      ensures response == None && requestSpec == JsonSpec && NoParams()
      ensures baseUri == config["api.base.url"]
    {
      this.scenarioContext := scenarioContext;
      this.config := config;
      this.isJson := isJson;
      response := None;
      requestSpec := JsonSpec;
      queryParams := map[];
      pathParams := map[];
      baseUri := GetApiBaseUrl(config).value;
    }

    /** The constructor as the step framework calls it: it fails when
        api.base.url is missing or empty, and otherwise starts with a JSON
        specification and points the client at api.base.url. */
    static method Create(scenarioContext: ScenarioContext, config: Properties, isJson: string -> bool)
      returns (r: Result<ApiStepDefinitions>)
      ensures GetApiBaseUrl(config).Err? ==> r == Err(GetApiBaseUrl(config).error)
      ensures GetApiBaseUrl(config).Ok? ==> r.Ok? && fresh(r.value)
      ensures r.Ok? ==>
        && r.value.scenarioContext == scenarioContext && r.value.config == config && r.value.isJson == isJson
        && r.value.response == None && r.value.requestSpec == JsonSpec && r.value.NoParams()
        && r.value.baseUri == config["api.base.url"]
    {
      var baseUrl :- GetApiBaseUrl(config);
      var steps := new ApiStepDefinitions(scenarioContext, config, isJson);
      return Ok(steps);
    }

    // -------------------------------------------------------------------------
    // Request setup

    /** setBaseUrl: a URL starting with "/" is appended to api.base.url (not
        to the current base URI); any other URL replaces the base URI. */
    method SetBaseUrl(url: string) returns (r: Outcome)
      modifies this`baseUri
      ensures !StartsWith(url, "/") ==> r == Pass && baseUri == url
      ensures StartsWith(url, "/") && GetApiBaseUrl(config).Err? ==>
        r == Fail(GetApiBaseUrl(config).error) && baseUri == old(baseUri)
      ensures StartsWith(url, "/") && GetApiBaseUrl(config).Ok? ==>
        r == Pass && baseUri == config["api.base.url"] + url
    {
      var full := url;
      if StartsWith(url, "/") {
        var configured := GetApiBaseUrl(config);
        if configured.Err? {
          return Fail(configured.error);
        }
        var baseUrl := configured.value;
        full := baseUrl + url;
      }
      baseUri := full;
      return Pass;
    }

    method SetHeader(header: string, value: string)
      modifies this`requestSpec
      ensures requestSpec == old(requestSpec).(headers := old(requestSpec.headers) + [(header, value)])
    {
      requestSpec := requestSpec.(headers := requestSpec.headers + [(header, value)]);
    }

    method SetCookie(name: string, value: string)
      modifies this`requestSpec
      ensures requestSpec == old(requestSpec).(cookies := old(requestSpec.cookies) + [(name, value)])
    {
      requestSpec := requestSpec.(cookies := requestSpec.cookies + [(name, value)]);
    }

    method SetBearerToken(token: string)
      modifies this`requestSpec
      ensures requestSpec == old(requestSpec).(auth := OAuth2(Some(token)))
    {
      requestSpec := requestSpec.(auth := OAuth2(Some(token)));
    }

    method SetQueryParam(param: string, value: string)
      modifies this`queryParams
      ensures queryParams == old(queryParams)[param := value]
    {
      queryParams := queryParams[param := value];
    }

    method SetPathParam(param: string, value: string)
      modifies this`pathParams
      ensures pathParams == old(pathParams)[param := value]
    {
      pathParams := pathParams[param := value];
    }

    /** resetRequest: an empty specification (not the JSON one the
        constructor builds) and no parameters; the base URI stays. */
    method ResetRequest()
      modifies this`requestSpec, this`queryParams, this`pathParams
      ensures requestSpec == EmptySpec && NoParams()
    {
      requestSpec := EmptySpec;
      queryParams := map[];
      pathParams := map[];
    }

    // -------------------------------------------------------------------------
    // The requests the steps send

    /** What the resolver reads when a step runs. */
    function Resolver(): Env
      reads scenarioContext
    {
      Env(config, scenarioContext.context)
    }

    method ResolveRequestBody(source: string, body: string, rnd: Entropy) returns (r: Result<string>)
      ensures r == RequestBody(Resolver(), rnd, isJson, source, body)
    {
      if ToLower(source) != "inline" {
        return Err(IllegalArgument("Unsupported source: " + source));
      }
      var resolved :- ReplacePlaceholders(Resolver(), rnd, body);
      if !isJson(resolved) {
        return Err(IllegalArgument("Invalid JSON: " + resolved));
      }
      return Ok(resolved);
    }

    /** makeGetRequest: the only request that carries the query and path
        parameters. */
    function GetRequest(endpoint: string, rnd: Entropy): Result<Request>
      reads this, scenarioContext
    {
      var path :- Resolve(Resolver(), rnd, endpoint);
      Ok(Request(Get, baseUri, path, requestSpec, queryParams, pathParams, None, None))
    }

    /** makePostRequest, makePostRequestWithBody and makePutRequest: the
        endpoint is resolved before the body, and the body is sent as JSON. */
    function BodyRequest(verb: Verb, endpoint: string, source: string, body: string, rndPath: Entropy, rndBody: Entropy)
      : Result<Request>
      reads this, scenarioContext
    {
      var path :- Resolve(Resolver(), rndPath, endpoint);
      var payload :- RequestBody(Resolver(), rndBody, isJson, source, body);
      Ok(Request(verb, baseUri, path, requestSpec.(contentType := Some(JsonContentType)), map[], map[], Some(payload), None))
    }

    /** makePostRequestWithTokenAndBody: endpoint, then token, then body. */
    function TokenPostRequest(endpoint: string, tokenKey: string, source: string, body: string, rndPath: Entropy, rndBody: Entropy)
      : Result<Request>
      reads this, scenarioContext
    {
      var path :- Resolve(Resolver(), rndPath, endpoint);
      var token :- StoredToken(scenarioContext.context, tokenKey);
      var payload :- RequestBody(Resolver(), rndBody, isJson, source, body);
      var spec := requestSpec.(auth := OAuth2(Some(token)), contentType := Some(JsonContentType));
      Ok(Request(Post, baseUri, path, spec, map[], map[], Some(payload), None))
    }

    /** makeGetRequestWithStoredToken: the token is read before the endpoint
        is resolved. */
    function TokenGetRequest(endpoint: string, tokenKey: string, rnd: Entropy): Result<Request>
      reads this, scenarioContext
    {
      var token :- UncheckedToken(scenarioContext.context, tokenKey);
      var path :- Resolve(Resolver(), rnd, endpoint);
      Ok(Request(Get, baseUri, path, requestSpec.(auth := OAuth2(token)), map[], map[], None, None))
    }

    function DeleteRequest(endpoint: string, rnd: Entropy): Result<Request>
      reads this, scenarioContext
    {
      var path :- Resolve(Resolver(), rnd, endpoint);
      Ok(Request(Delete, baseUri, path, requestSpec, map[], map[], None, None))
    }

    /** makeDeleteRequestWithStoredToken: endpoint, then token. */
    function TokenDeleteRequest(endpoint: string, tokenKey: string, rnd: Entropy): Result<Request>
      reads this, scenarioContext
    {
      var path :- Resolve(Resolver(), rnd, endpoint);
      var token :- StoredToken(scenarioContext.context, tokenKey);
      Ok(Request(Delete, baseUri, path, requestSpec.(auth := OAuth2(Some(token))), map[], map[], None, None))
    }

    /** makeMultipartPostRequest: the file goes as the "file" part. */
    function MultipartRequest(endpoint: string, filePath: string, rnd: Entropy): Result<Request>
      reads this, scenarioContext
    {
      var path :- Resolve(Resolver(), rnd, endpoint);
      Ok(Request(Post, baseUri, path, requestSpec, map[], map[], None, Some(filePath)))
    }

    // -------------------------------------------------------------------------
    // Sending

    twostate predicate Untouched()
      reads this, scenarioContext
    {
      && response == old(response)
      && requestSpec == old(requestSpec)
      && queryParams == old(queryParams)
      && pathParams == old(pathParams)
      && scenarioContext.context == old(scenarioContext.context)
    }

    /** The state after a request step: when the request cannot be built or
        the client throws, nothing changes; otherwise the response is kept in
        the field and under "lastApiResponse", and the request state is reset
        exactly when reset holds. */
    twostate predicate Dispatched(req: Result<Request>, send: Transport, reset: bool, r: Outcome)
      reads this, scenarioContext
    {
      if req.Err? then r == Fail(req.error) && Untouched()
      else if send(req.value).None? then r == Fail(TransportError) && Untouched()
      else
        && r == Pass
        && response == send(req.value)
        && scenarioContext.context == old(scenarioContext.context)[LastApiResponse := Resp(send(req.value).value)]
        && Synced()
        && if reset then requestSpec == EmptySpec && NoParams()
           else requestSpec == old(requestSpec) && queryParams == old(queryParams) && pathParams == old(pathParams)
    }

    method Send(req: Request, send: Transport, reset: bool) returns (r: Outcome)
      modifies this`response, this`requestSpec, this`queryParams, this`pathParams, scenarioContext
      ensures Dispatched(Ok(req), send, reset, r)
    {
      var received := send(req);
      if received.None? {
        return Fail(TransportError);
      }
      response := received;
      var stored := scenarioContext.SetResponse(received);
      if reset {
        ResetRequest();
      }
      return Pass;
    }

    method MakeGetRequest(endpoint: string, rnd: Entropy, send: Transport) returns (r: Outcome)
      modifies this`response, this`requestSpec, this`queryParams, this`pathParams, scenarioContext
      ensures Dispatched(old(GetRequest(endpoint, rnd)), send, true, r)
    {
      var resolvedPath := ReplacePlaceholders(Resolver(), rnd, endpoint);
      if resolvedPath.Err? {
        return Fail(resolvedPath.error);
      }
      var path := resolvedPath.value;
      r := Send(Request(Get, baseUri, path, requestSpec, queryParams, pathParams, None, None), send, true);
    }

    method MakePostRequest(endpoint: string, source: string, body: string, rndPath: Entropy, rndBody: Entropy, send: Transport)
      returns (r: Outcome)
      modifies this`response, this`requestSpec, this`queryParams, this`pathParams, scenarioContext
      ensures Dispatched(old(BodyRequest(Post, endpoint, source, body, rndPath, rndBody)), send, true, r)
    {
      r := SendWithBody(Post, endpoint, source, body, rndPath, rndBody, send);
    }

    method MakePostRequestWithBody(endpoint: string, body: string, rndPath: Entropy, rndBody: Entropy, send: Transport)
      returns (r: Outcome)
      modifies this`response, this`requestSpec, this`queryParams, this`pathParams, scenarioContext
      ensures Dispatched(old(BodyRequest(Post, endpoint, "Inline", body, rndPath, rndBody)), send, true, r)
    {
      r := SendWithBody(Post, endpoint, "Inline", body, rndPath, rndBody, send);
    }

    method MakePutRequest(endpoint: string, source: string, value: string, rndPath: Entropy, rndBody: Entropy, send: Transport)
      returns (r: Outcome)
      modifies this`response, this`requestSpec, this`queryParams, this`pathParams, scenarioContext
      ensures Dispatched(old(BodyRequest(Put, endpoint, source, value, rndPath, rndBody)), send, true, r)
    {
      r := SendWithBody(Put, endpoint, source, value, rndPath, rndBody, send);
    }

    /** The common body of the POST and PUT steps. */
    method SendWithBody(verb: Verb, endpoint: string, source: string, body: string, rndPath: Entropy, rndBody: Entropy, send: Transport)
      returns (r: Outcome)
      modifies this`response, this`requestSpec, this`queryParams, this`pathParams, scenarioContext
      ensures Dispatched(old(BodyRequest(verb, endpoint, source, body, rndPath, rndBody)), send, true, r)
    {
      var resolvedPath := ReplacePlaceholders(Resolver(), rndPath, endpoint);
      if resolvedPath.Err? {
        return Fail(resolvedPath.error);
      }
      var path := resolvedPath.value;
      var resolvedBody := ResolveRequestBody(source, body, rndBody);
      if resolvedBody.Err? {
        return Fail(resolvedBody.error);
      }
      var payload := resolvedBody.value;
      var spec := requestSpec.(contentType := Some(JsonContentType));
      r := Send(Request(verb, baseUri, path, spec, map[], map[], Some(payload), None), send, true);
    }

    method MakePostRequestWithTokenAndBody(endpoint: string, tokenKey: string, source: string, body: string,
                                           rndPath: Entropy, rndBody: Entropy, send: Transport)
      returns (r: Outcome)
      modifies this`response, this`requestSpec, this`queryParams, this`pathParams, scenarioContext
      ensures Dispatched(old(TokenPostRequest(endpoint, tokenKey, source, body, rndPath, rndBody)), send, true, r)
    {
      var resolvedPath := ReplacePlaceholders(Resolver(), rndPath, endpoint);
      if resolvedPath.Err? {
        return Fail(resolvedPath.error);
      }
      var path := resolvedPath.value;
      var checked := CheckedToken(tokenKey);
      if checked.Err? {
        return Fail(checked.error);
      }
      var token := checked.value;
      var resolvedBody := ResolveRequestBody(source, body, rndBody);
      if resolvedBody.Err? {
        return Fail(resolvedBody.error);
      }
      var payload := resolvedBody.value;
      var spec := requestSpec.(auth := OAuth2(Some(token)), contentType := Some(JsonContentType));
      r := Send(Request(Post, baseUri, path, spec, map[], map[], Some(payload), None), send, true);
    }

    /** The stored token with the null-or-empty check of the POST and DELETE
        steps. */
    method CheckedToken(tokenKey: string) returns (r: Result<string>)
      ensures r == StoredToken(scenarioContext.context, tokenKey)
    {
      var stored :- scenarioContext.GetContext(tokenKey);
      match stored
      case Null => return Err(IllegalState("Stored token '" + tokenKey + "' is null or empty."));
      case Str(t) =>
        if t == "" {
          return Err(IllegalState("Stored token '" + tokenKey + "' is null or empty."));
        }
        return Ok(t);
      case _ => return Err(ClassCast);
    }

    /** makeGetRequestWithStoredToken: no check on the token, and no reset
        afterwards. */
    method MakeGetRequestWithStoredToken(endpoint: string, tokenKey: string, rnd: Entropy, send: Transport)
      returns (r: Outcome)
      modifies this`response, this`requestSpec, this`queryParams, this`pathParams, scenarioContext
      ensures Dispatched(old(TokenGetRequest(endpoint, tokenKey, rnd)), send, false, r)
    {
      var lookup := scenarioContext.GetContext(tokenKey);
      if lookup.Err? {
        return Fail(lookup.error);
      }
      var stored := lookup.value;
      var token: Option<string>;
      match stored {
        case Null => token := None;
        case Str(t) => token := Some(t);
        case _ => return Fail(ClassCast);
      }
      var resolvedPath := ReplacePlaceholders(Resolver(), rnd, endpoint);
      if resolvedPath.Err? {
        return Fail(resolvedPath.error);
      }
      var path := resolvedPath.value;
      r := Send(Request(Get, baseUri, path, requestSpec.(auth := OAuth2(token)), map[], map[], None, None), send, false);
    }

    method MakeDeleteRequest(endpoint: string, rnd: Entropy, send: Transport) returns (r: Outcome)
      modifies this`response, this`requestSpec, this`queryParams, this`pathParams, scenarioContext
      ensures Dispatched(old(DeleteRequest(endpoint, rnd)), send, true, r)
    {
      var resolvedPath := ReplacePlaceholders(Resolver(), rnd, endpoint);
      if resolvedPath.Err? {
        return Fail(resolvedPath.error);
      }
      var path := resolvedPath.value;
      r := Send(Request(Delete, baseUri, path, requestSpec, map[], map[], None, None), send, true);
    }

    method MakeDeleteRequestWithStoredToken(endpoint: string, tokenKey: string, rnd: Entropy, send: Transport)
      returns (r: Outcome)
      modifies this`response, this`requestSpec, this`queryParams, this`pathParams, scenarioContext
      ensures Dispatched(old(TokenDeleteRequest(endpoint, tokenKey, rnd)), send, true, r)
    {
      var resolvedPath := ReplacePlaceholders(Resolver(), rnd, endpoint);
      if resolvedPath.Err? {
        return Fail(resolvedPath.error);
      }
      var path := resolvedPath.value;
      var checked := CheckedToken(tokenKey);
      if checked.Err? {
        return Fail(checked.error);
      }
      var token := checked.value;
      r := Send(Request(Delete, baseUri, path, requestSpec.(auth := OAuth2(Some(token))), map[], map[], None, None), send, true);
    }

    method MakeMultipartPostRequest(endpoint: string, filePath: string, rnd: Entropy, send: Transport)
      returns (r: Outcome)
      modifies this`response, this`requestSpec, this`queryParams, this`pathParams, scenarioContext
      ensures Dispatched(old(MultipartRequest(endpoint, filePath, rnd)), send, true, r)
    {
      var resolvedPath := ReplacePlaceholders(Resolver(), rnd, endpoint);
      if resolvedPath.Err? {
        return Fail(resolvedPath.error);
      }
      var path := resolvedPath.value;
      r := Send(Request(Post, baseUri, path, requestSpec, map[], map[], None, Some(filePath)), send, true);
    }

    /** storeResponseField: the field is read from the context's last
        response and stored as a String under the key, as given. */
    method StoreResponseField(jsonPath: string, key: string) returns (r: Outcome)
      modifies scenarioContext
      ensures var field := old(ResponseField(scenarioContext.context, jsonPath));
        && (field.Err? ==> r == Fail(field.error) && scenarioContext.context == old(scenarioContext.context))
        && (field.Ok? && IsBlank(key) ==>
              r == Fail(IllegalArgument(KeyMessage)) && scenarioContext.context == old(scenarioContext.context))
        && (field.Ok? && !IsBlank(key) ==>
              r == Pass && scenarioContext.context == old(scenarioContext.context)[key := Str(field.value)])
    {
      var last := scenarioContext.GetResponse();
      if last.Err? {
        return Fail(last.error);
      }
      var resp := last.value;
      var value := JsonStringOf(resp, jsonPath);
      if value.None? || value.value == "" {
        return Fail(IllegalArgument("No value found in response for JSON path: " + jsonPath));
      }
      r := scenarioContext.SetContext(key, Str(value.value));
    }

    // -------------------------------------------------------------------------
    // Response assertions; a failure carries the step's own message

    method ValidateStatus(statusCode: int) returns (r: Outcome)
      ensures response.None? ==> r == Fail(NoResponse)
      ensures response.Some? ==> (r == Pass <==> response.value.statusCode == statusCode)
      ensures response.Some? && r.Fail? ==>
        r.error == AssertionFailed("Unexpected status code: " + IntToString(response.value.statusCode))
    {
      if response.None? {
        return Fail(NoResponse);
      }
      if response.value.statusCode != statusCode {
        return Fail(AssertionFailed("Unexpected status code: " + IntToString(response.value.statusCode)));
      }
      return Pass;
    }

    method ValidateResponseBodyContains(text: string) returns (r: Outcome)
      ensures response.None? ==> r == Fail(NoResponse)
      ensures response.Some? ==> (r == Pass <==> Contains(response.value.body, text))
      ensures response.Some? && r.Fail? ==> r.error == AssertionFailed("Response does not contain: " + text)
    {
      if response.None? {
        return Fail(NoResponse);
      }
      if !Contains(response.value.body, text) {
        return Fail(AssertionFailed("Response does not contain: " + text));
      }
      return Pass;
    }

    /** validateJsonPathIdIsNotNull reads the context's last response, not
        the field. */
    method ValidateJsonPathIdIsNotNull() returns (r: Outcome)
      ensures ResponseOf(scenarioContext.context).Err? ==> r == Fail(ResponseOf(scenarioContext.context).error)
      ensures ResponseOf(scenarioContext.context).Ok? ==>
        (r == Pass <==> "id" in ResponseOf(scenarioContext.context).value.jsonStrings)
      ensures ResponseOf(scenarioContext.context).Ok? && r.Fail? ==>
        r.error == AssertionFailed("JSON path 'id' should not be null")
    {
      var last := scenarioContext.GetResponse();
      if last.Err? {
        return Fail(last.error);
      }
      var resp := last.value;
      if JsonStringOf(resp, "id").None? {
        return Fail(AssertionFailed("JSON path 'id' should not be null"));
      }
      return Pass;
    }

    method ValidateHeader(header: string, expectedValue: string) returns (r: Outcome)
      ensures response.None? ==> r == Fail(NoResponse)
      ensures response.Some? ==>
        (r == Pass <==> ToLower(header) in response.value.headers && response.value.headers[ToLower(header)] == expectedValue)
      ensures response.Some? && r.Fail? ==> r.error == AssertionFailed("Header validation failed for: " + header)
    {
      if response.None? {
        return Fail(NoResponse);
      }
      if HeaderOf(response.value, header) != Some(expectedValue) {
        return Fail(AssertionFailed("Header validation failed for: " + header));
      }
      return Pass;
    }

    /** validateResponseHeaderGreaterThan reads the context's last response;
        the header must be present, parse as an int and exceed the bound. */
    method ValidateResponseHeaderGreaterThan(headerName: string, expectedValue: int) returns (r: Outcome)
      ensures ResponseOf(scenarioContext.context).Err? ==> r == Fail(ResponseOf(scenarioContext.context).error)
      ensures var resp := ResponseOf(scenarioContext.context);
        resp.Ok? ==>
          (r == Pass <==> ToLower(headerName) in resp.value.headers
                          && ParseInt(resp.value.headers[ToLower(headerName)]).Ok?
                          && ParseInt(resp.value.headers[ToLower(headerName)]).value > expectedValue)
      ensures var resp := ResponseOf(scenarioContext.context);
        resp.Ok? && ToLower(headerName) !in resp.value.headers ==>
          r == Fail(AssertionFailed("Response header '" + headerName + "' is not present"))
      ensures var resp := ResponseOf(scenarioContext.context);
        resp.Ok? && ToLower(headerName) in resp.value.headers && ParseInt(resp.value.headers[ToLower(headerName)]).Err? ==>
          r == Fail(AssertionFailed("Response header '" + headerName + "' value ('" + resp.value.headers[ToLower(headerName)]
                                    + "') is not a valid integer"))
      ensures var resp := ResponseOf(scenarioContext.context);
        resp.Ok? && ToLower(headerName) in resp.value.headers && ParseInt(resp.value.headers[ToLower(headerName)]).Ok? && r.Fail? ==>
          r.error == AssertionFailed("Response header '" + headerName + "' value ("
                                     + IntToString(ParseInt(resp.value.headers[ToLower(headerName)]).value)
                                     + ") is not greater than " + IntToString(expectedValue))
    {
      var last := scenarioContext.GetResponse();
      if last.Err? {
        return Fail(last.error);
      }
      var resp := last.value;
      var headerValue := HeaderOf(resp, headerName);
      if headerValue.None? {
        return Fail(AssertionFailed("Response header '" + headerName + "' is not present"));
      }
      var parsed := ParseInt(headerValue.value);
      if parsed.Err? {
        return Fail(AssertionFailed("Response header '" + headerName + "' value ('" + headerValue.value
                                    + "') is not a valid integer"));
      }
      if parsed.value <= expectedValue {
        return Fail(AssertionFailed("Response header '" + headerName + "' value (" + IntToString(parsed.value)
                                    + ") is not greater than " + IntToString(expectedValue)));
      }
      return Pass;
    }

    method ValidateCookie(cookieName: string, expectedValue: string) returns (r: Outcome)
      ensures response.None? ==> r == Fail(NoResponse)
      ensures response.Some? ==>
        (r == Pass <==> cookieName in response.value.cookies && response.value.cookies[cookieName] == expectedValue)
      ensures response.Some? && r.Fail? ==> r.error == AssertionFailed("Cookie validation failed for: " + cookieName)
    {
      if response.None? {
        return Fail(NoResponse);
      }
      if CookieOf(response.value, cookieName) != Some(expectedValue) {
        return Fail(AssertionFailed("Cookie validation failed for: " + cookieName));
      }
      return Pass;
    }

    /** validateResponseTime: the time must be strictly below the bound. */
    method ValidateResponseTime(maxTime: int) returns (r: Outcome)
      ensures response.None? ==> r == Fail(NoResponse)
      ensures response.Some? ==> (r == Pass <==> response.value.timeMs < maxTime)
      ensures response.Some? && r.Fail? ==> r.error == AssertionFailed("Response time exceeded " + IntToString(maxTime) + "ms")
    {
      if response.None? {
        return Fail(NoResponse);
      }
      if response.value.timeMs >= maxTime {
        return Fail(AssertionFailed("Response time exceeded " + IntToString(maxTime) + "ms"));
      }
      return Pass;
    }

    method ValidateJsonPath(jsonPath: string, expectedValue: string) returns (r: Outcome)
      ensures response.None? ==> r == Fail(NoResponse)
      ensures response.Some? ==>
        (r == Pass <==> jsonPath in response.value.jsonStrings && response.value.jsonStrings[jsonPath] == expectedValue)
      ensures response.Some? && r.Fail? ==> r.error == AssertionFailed("JSON path validation failed: " + jsonPath)
    {
      if response.None? {
        return Fail(NoResponse);
      }
      if JsonStringOf(response.value, jsonPath) != Some(expectedValue) {
        return Fail(AssertionFailed("JSON path validation failed: " + jsonPath));
      }
      return Pass;
    }
  }
}
