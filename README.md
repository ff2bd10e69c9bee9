# Cucumber step definitions for REST, JDBC and Selenium, modelled in Dafny

The modelled system is a library of Cucumber step definitions (Java,
RestAssured, JDBC, Selenium, TestNG assertions). Feature files drive HTTP
calls, database queries and browser actions through it. This project models
the parts of that library that hold logic of their own. It proves what each
part promises.

- **ConfigLoader** (`config_loader.dfy`): lookups over the loaded
  `config.properties`. Covers defaults, the required base URLs, tag
  precedence, integer parsing of the driver timeouts and the JSON directory
  rule.
- **ScenarioContext** (`scenario_context.dfy`): the per-scenario key/value
  store. Keys are validated, reads fail fast, and the last API response has
  its own slot.
- **Placeholder resolver** (`placeholders.dfy`): `replacePlaceholders`.
  It runs three sequential regex passes: `$$key$$` from the configuration,
  `<key>` from the scenario context, then `{{name}}` from the random
  generators. Each pass uses the lazy, leftmost matching of
  `java.util.regex` and the `$`/`\` expansion of `Matcher.appendReplacement`.
  A loop-based method is proved equal to the functional specification.
- **API steps** (`api_steps.dfy`): the request state of the main API step
  class. Covers the base URI, the specification, query and path parameters,
  and the response. It models every request step, with its order of
  resolution and its reset rule, the body resolution, the stored-token
  checks, storing a response field, and the response assertions.
- **DB steps** (`db_steps.dfy`): the table-name check, the parameterised
  query builder and the parameter binder. Both loops are written as `while`
  loops and proved against functions.
- **UI steps** (`ui_steps.dfy`): selector classification, ordinal parsing,
  the 1-based and 0-based element picks, and the two "last found" slots
  with their reset rules. Also covers navigation to relative URLs and
  event dispatch.
- **Legacy API steps** (`legacy_api_steps.dfy`): the older request state
  machine. One parameter map is shared by query and path parameters, and
  the specification is null until a base URL is set.

`java_lang.dfy` holds the Java platform behaviour the steps depend on: the
exceptions, `String.trim`, `String.split` (trailing empty strings dropped),
ASCII `toLowerCase`, and `Integer.parseInt`/`toString` over the 32-bit
range. `http.dfy` holds the request and response data.

The environment enters as parameters:
- the HTTP client is a function `Request -> Option<Response>`, where `None`
  is an exception raised while sending;
- the browser is a `Browser` value: what a locator finds, which elements are
  selected, and which interactions throw;
- randomness is an `Entropy` function;
- JSON validity is a predicate;
- the configuration is a map.

An operation that throws returns `Err`/`Fail` with the exception and its
message.

## Model

| member | source | states |
|---|---|---|
| `ConfigLoader.GetProperty` | src/main/java/com/github/qaPaschalE/util/ConfigLoader.java:29-33 | the configured value when the key is present, otherwise the default |
| `ConfigLoader.GetTags` | src/main/java/com/github/qaPaschalE/util/ConfigLoader.java:35-41 | a non-empty system property wins, then the configured tags, then "@smoke" |
| `ConfigLoader.GetUiBaseUrl` | src/main/java/com/github/qaPaschalE/util/ConfigLoader.java:43-49 | succeeds exactly when ui.base.url is present and non-empty, and returns it unchanged; otherwise MissingPropertyException with its message |
| `ConfigLoader.GetApiBaseUrl` | src/main/java/com/github/qaPaschalE/util/ConfigLoader.java:51-57 | the same rule for api.base.url |
| `ConfigLoader.FixedDefaults` | src/main/java/com/github/qaPaschalE/util/ConfigLoader.java:59-73 | the DB URL, user, password and browser fall back to their fixed defaults and otherwise return the configured value |
| `ConfigLoader.DefaultsParse` | src/main/java/com/github/qaPaschalE/util/ConfigLoader.java:75-91 | the default timeouts "10" and "30" parse as the ints 10 and 30 |
| `ConfigLoader.GetImplicitWaitTime` | src/main/java/com/github/qaPaschalE/util/ConfigLoader.java:75-82 | 10 when unset; a configured value that does not parse as an int is a RuntimeException with the step's message |
| `ConfigLoader.GetPageLoadTimeout` | src/main/java/com/github/qaPaschalE/util/ConfigLoader.java:84-91 | the same rule with default 30 |
| `ConfigLoader.WithTrailingSlash` | src/main/java/com/github/qaPaschalE/util/ConfigLoader.java:95-97 | the result always ends in "/" and is unchanged when the directory already does |
| `ConfigLoader.JsonDirectory` | src/main/java/com/github/qaPaschalE/util/ConfigLoader.java:94-97 | the JSON directory always ends in "/" |
| `ConfigLoader.JsonDirectoryRule` | src/main/java/com/github/qaPaschalE/util/ConfigLoader.java:93-97 | adding the slash is idempotent, and the default directory is src/test/resources/json/ |
| `ScenarioContexts.Lookup` | src/main/java/com/github/qaPaschalE/util/ScenarioContext.java:39-49 | a blank key is IllegalArgumentException, a missing key is NullPointerException naming the key, and a present key yields its value (null included) |
| `ScenarioContexts.ResponseOf` | src/main/java/com/github/qaPaschalE/util/ScenarioContext.java:95-101 | the last response, or the failure for a missing, null or wrongly typed slot |
| `ScenarioContexts.ScenarioContext.constructor` | src/main/java/com/github/qaPaschalE/util/ScenarioContext.java:15-16 | a new context is empty |
| `ScenarioContexts.ScenarioContext.SetContext` | src/main/java/com/github/qaPaschalE/util/ScenarioContext.java:21-27 | a blank key is refused and nothing changes; otherwise exactly that key is (over)written, untrimmed |
| `ScenarioContexts.ScenarioContext.GetContext` | src/main/java/com/github/qaPaschalE/util/ScenarioContext.java:39-49 | the read agrees with `Lookup` on the current map |
| `ScenarioContexts.ScenarioContext.Contains` | src/main/java/com/github/qaPaschalE/util/ScenarioContext.java:58-65 | a blank key is refused; otherwise membership of the key as given |
| `ScenarioContexts.ScenarioContext.ClearContext` | src/main/java/com/github/qaPaschalE/util/ScenarioContext.java:70-73 | the map is empty afterwards |
| `ScenarioContexts.ScenarioContext.SetResponse` | src/main/java/com/github/qaPaschalE/util/ScenarioContext.java:81-87 | a null response is refused; otherwise it becomes the last response and `ResponseOf` returns it |
| `ScenarioContexts.ScenarioContext.GetResponse` | src/main/java/com/github/qaPaschalE/util/ScenarioContext.java:95-101 | the read agrees with `ResponseOf` |
| `ScenarioContexts.KeysAreNotTrimmed` | src/main/java/com/github/qaPaschalE/util/ScenarioContext.java:21-49 | writing one key leaves every other key (and the last response) as it was, even keys equal after trimming |
| `ScenarioContexts.SetContextOverwritesResponse` | src/main/java/com/github/qaPaschalE/util/ScenarioContext.java:21-27 | setContext under "lastApiResponse" replaces the response slot: a string there makes getResponse fail with ClassCastException |
| `Placeholders.FindFrom` | src/test/java/com/github/qaPaschalE/stepDefinitions/api/ApiStepDefinitions.java:571-575 | the leftmost lazy match at or after a position, with no match starting earlier; None exactly when no position matches |
| `Placeholders.NoCloseNoMatch` | src/test/java/com/github/qaPaschalE/stepDefinitions/api/ApiStepDefinitions.java:571 | an opener with no closing delimiter on its line is not a match |
| `Placeholders.MatchIsNotNoMatch` | src/test/java/com/github/qaPaschalE/stepDefinitions/api/ApiStepDefinitions.java:571 | a match is a non-empty span inside the text |
| `Placeholders.AlnumPrefix` | src/test/java/com/github/qaPaschalE/stepDefinitions/api/ApiStepDefinitions.java:582 | the longest ASCII letter/digit prefix, as read for a named group reference |
| `Placeholders.GroupNumber` | src/test/java/com/github/qaPaschalE/stepDefinitions/api/ApiStepDefinitions.java:582 | the group number that appendReplacement reads after "$" stays within the group count when it can, taking digits greedily |
| `Placeholders.Expand` | src/test/java/com/github/qaPaschalE/stepDefinitions/api/ApiStepDefinitions.java:582 | expanding a replacement fails only with IllegalArgumentException or IndexOutOfBoundsException |
| `Placeholders.ExpandPlain` | src/test/java/com/github/qaPaschalE/stepDefinitions/api/ApiStepDefinitions.java:582 | a replacement without "$" or "\\" is inserted literally |
| `Placeholders.ExpandQuote` | src/test/java/com/github/qaPaschalE/stepDefinitions/api/ApiStepDefinitions.java:582 | the code hands values to appendReplacement unescaped; escaping each "$" and "\\" first (Matcher.quoteReplacement, which the code does not call) would make expansion give every value back unchanged, as `DollarInConfigValue` shows it does not |
| `Placeholders.GroupReferences` | src/test/java/com/github/qaPaschalE/stepDefinitions/api/ApiStepDefinitions.java:582 | "$0" inserts the whole match, "$1" the key, "$2" is IndexOutOfBoundsException, and a trailing "$" is IllegalArgumentException |
| `Placeholders.BadGroupReference` | src/test/java/com/github/qaPaschalE/stepDefinitions/api/ApiStepDefinitions.java:582 | "$" followed by anything but a digit or "{" is "Illegal group reference" |
| `Placeholders.RandomNumber` | src/test/java/com/github/qaPaschalE/stepDefinitions/api/ApiStepDefinitions.java:622-625 | a decimal number below 1000 without leading zeros that parses back to its value |
| `Placeholders.RandomName` | src/test/java/com/github/qaPaschalE/stepDefinitions/api/ApiStepDefinitions.java:626-636 | exactly ten lower-case ASCII letters |
| `Placeholders.UuidHex` | src/test/java/com/github/qaPaschalE/stepDefinitions/api/ApiStepDefinitions.java:619 | 32 lower-case hex digits with the version-4 and variant nibbles of a random UUID |
| `Placeholders.RandomEmail` | src/test/java/com/github/qaPaschalE/stepDefinitions/api/ApiStepDefinitions.java:618-621 | 48 characters: "test", 32 hex digits, "@yopmail.com" |
| `Placeholders.Generate` | src/test/java/com/github/qaPaschalE/stepDefinitions/api/ApiStepDefinitions.java:614-641 | the case-insensitive switch over the three generator names; any other name re-emits "{{name}}" |
| `Placeholders.ConfigValue` | src/test/java/com/github/qaPaschalE/stepDefinitions/api/ApiStepDefinitions.java:576-581 | succeeds exactly for a present, non-empty config value; otherwise IllegalArgumentException naming the key |
| `Placeholders.ContextText` | src/test/java/com/github/qaPaschalE/stepDefinitions/api/ApiStepDefinitions.java:594-602 | a lookup failure propagates, a null value keeps the placeholder "<key>", any other value is its text |
| `Placeholders.PassStep` | src/test/java/com/github/qaPaschalE/stepDefinitions/api/ApiStepDefinitions.java:575-584 | one find/append step of a pass: the text before the match, the replacement, then the rest of the pass |
| `Placeholders.ApplyPass` | src/test/java/com/github/qaPaschalE/stepDefinitions/api/ApiStepDefinitions.java:571-587 | the find/appendReplacement/appendTail loop computes the pass function |
| `Placeholders.ReplacePlaceholders` | src/test/java/com/github/qaPaschalE/stepDefinitions/api/ApiStepDefinitions.java:565-650 | the three loops in order compute `Resolve` |
| `Placeholders.NoMatchKeepsText` | src/test/java/com/github/qaPaschalE/stepDefinitions/api/ApiStepDefinitions.java:575-584 | a pass over text with no match returns the text unchanged |
| `Placeholders.ResolveIdentity` | src/test/java/com/github/qaPaschalE/stepDefinitions/api/ApiStepDefinitions.java:565-650 | text with no placeholder of any kind resolves to itself |
| `Placeholders.NothingAtEnd` | src/test/java/com/github/qaPaschalE/stepDefinitions/api/ApiStepDefinitions.java:575 | no match starts at the end of the text |
| `Placeholders.KeyCloses` | src/test/java/com/github/qaPaschalE/stepDefinitions/api/ApiStepDefinitions.java:571 | inside opener+key+closer, no line break and no early closer precede the closer |
| `Placeholders.SingleMatch` | src/test/java/com/github/qaPaschalE/stepDefinitions/api/ApiStepDefinitions.java:571-575 | opener+key+closer is matched as one span holding the key |
| `Placeholders.SinglePass` | src/test/java/com/github/qaPaschalE/stepDefinitions/api/ApiStepDefinitions.java:575-584 | a pass over a single placeholder yields exactly its contribution |
| `Placeholders.SingleContribution` | src/test/java/com/github/qaPaschalE/stepDefinitions/api/ApiStepDefinitions.java:576-582 | the contribution of a single placeholder is the expanded replacement for its trimmed key |
| `Placeholders.TrimmedBlank` | src/test/java/com/github/qaPaschalE/stepDefinitions/api/ApiStepDefinitions.java:576 | a trimmed key is blank only when it is empty |
| `Placeholders.ConfigPlaceholder` | src/test/java/com/github/qaPaschalE/stepDefinitions/api/ApiStepDefinitions.java:571-587 | "$$key$$" becomes the configured value of the trimmed key, and a missing or empty value is IllegalArgumentException naming the key |
| `Placeholders.ContextPlaceholderFails` | src/test/java/com/github/qaPaschalE/stepDefinitions/api/ApiStepDefinitions.java:593-595 | "<key>" with a blank or unknown key fails with the context's exception |
| `Placeholders.ContextPlaceholder` | src/test/java/com/github/qaPaschalE/stepDefinitions/api/ApiStepDefinitions.java:593-603 | "<key>" becomes the stored value's text, or stays "<key>" (trimmed) when the stored value is null |
| `Placeholders.GeneratedArePlain` | src/test/java/com/github/qaPaschalE/stepDefinitions/api/ApiStepDefinitions.java:618-636 | generated numbers, names and emails hold no "$" or "\\", so they are inserted literally |
| `Placeholders.DynamicPlaceholder` | src/test/java/com/github/qaPaschalE/stepDefinitions/api/ApiStepDefinitions.java:610-646 | "{{name}}" becomes the generator output for the trimmed name |
| `Placeholders.GeneratedIsPlain` | src/test/java/com/github/qaPaschalE/stepDefinitions/api/ApiStepDefinitions.java:614-642 | the dynamic pass never inserts "$" or "\\" for a plain name |
| `Placeholders.BlankKeys` | src/test/java/com/github/qaPaschalE/stepDefinitions/api/ApiStepDefinitions.java:576-595 | a blank config key reads the empty key and fails; a blank context key is refused by the context |
| `Placeholders.ConfigValueIsRescanned` | src/test/java/com/github/qaPaschalE/stepDefinitions/api/ApiStepDefinitions.java:584-598 | a config value that itself contains "<inner>" is resolved again by the context pass |
| `Placeholders.ExpandAfterPlain` | src/test/java/com/github/qaPaschalE/stepDefinitions/api/ApiStepDefinitions.java:582 | a plain prefix passes through expansion unchanged ahead of the rest |
| `Placeholders.DollarInConfigValue` | src/test/java/com/github/qaPaschalE/stepDefinitions/api/ApiStepDefinitions.java:577-582 | a config value with a stray "$" makes the whole resolution fail with "Illegal group reference" |
| `ApiSteps.RequestBody` | src/test/java/com/github/qaPaschalE/stepDefinitions/api/ApiStepDefinitions.java:660-679 | only the "inline" source (any case) is accepted; the body is resolved, then must be JSON, otherwise "Invalid JSON: " + the resolved text |
| `ApiSteps.BodySources` | src/test/java/com/github/qaPaschalE/stepDefinitions/api/ApiStepDefinitions.java:662-668 | "Inline" behaves as "inline", while "file" and "config" are rejected as unsupported |
| `ApiSteps.StoredToken` | src/test/java/com/github/qaPaschalE/stepDefinitions/api/ApiStepDefinitions.java:272-277 | a token is accepted only when stored as a non-empty string; null or empty is IllegalStateException naming the key |
| `ApiSteps.UncheckedToken` | src/test/java/com/github/qaPaschalE/stepDefinitions/api/ApiStepDefinitions.java:303 | the GET-with-token step takes whatever string (or null) is stored |
| `ApiSteps.GetTokenIsUnchecked` | src/test/java/com/github/qaPaschalE/stepDefinitions/api/ApiStepDefinitions.java:272-312 | the GET step sends every token the POST/DELETE steps accept, and also the null and empty ones they refuse |
| `ApiSteps.ResponseField` | src/test/java/com/github/qaPaschalE/stepDefinitions/api/ApiStepDefinitions.java:97-115 | the field read from the context's last response must be present and non-empty |
| `ApiSteps.StoredFieldReadsBack` | src/test/java/com/github/qaPaschalE/stepDefinitions/api/ApiStepDefinitions.java:97-115 | the stored field reads back under its key, and the last response is still there |
| `ApiSteps.ApiStepDefinitions.constructor` | src/test/java/com/github/qaPaschalE/stepDefinitions/api/ApiStepDefinitions.java:35-49 | starts with a JSON specification, no parameters, no response, and the base URI from api.base.url |
| `ApiSteps.ApiStepDefinitions.Create` | src/test/java/com/github/qaPaschalE/stepDefinitions/api/ApiStepDefinitions.java:35-49 | construction fails exactly when api.base.url is missing or empty |
| `ApiSteps.ApiStepDefinitions.SetBaseUrl` | src/test/java/com/github/qaPaschalE/stepDefinitions/api/ApiStepDefinitions.java:58-67 | a URL starting with "/" is appended to api.base.url; any other replaces the base URI |
| `ApiSteps.ApiStepDefinitions.SetHeader` | src/test/java/com/github/qaPaschalE/stepDefinitions/api/ApiStepDefinitions.java:75-78 | the header is added to the specification, nothing else changes |
| `ApiSteps.ApiStepDefinitions.SetQueryParam` | src/test/java/com/github/qaPaschalE/stepDefinitions/api/ApiStepDefinitions.java:86-90 | the query map gains or overwrites exactly that name |
| `ApiSteps.ApiStepDefinitions.SetPathParam` | src/test/java/com/github/qaPaschalE/stepDefinitions/api/ApiStepDefinitions.java:122-125 | the path map gains or overwrites exactly that name |
| `ApiSteps.ApiStepDefinitions.SetCookie` | src/test/java/com/github/qaPaschalE/stepDefinitions/api/ApiStepDefinitions.java:133-136 | the cookie is added to the specification |
| `ApiSteps.ApiStepDefinitions.SetBearerToken` | src/test/java/com/github/qaPaschalE/stepDefinitions/api/ApiStepDefinitions.java:143-147 | the specification authenticates with that OAuth 2 token |
| `ApiSteps.ApiStepDefinitions.ResetRequest` | src/test/java/com/github/qaPaschalE/stepDefinitions/api/ApiStepDefinitions.java:684-689 | an empty (not JSON) specification and no parameters; the base URI stays |
| `ApiSteps.ApiStepDefinitions.ResolveRequestBody` | src/test/java/com/github/qaPaschalE/stepDefinitions/api/ApiStepDefinitions.java:660-679 | the method agrees with `RequestBody` |
| `ApiSteps.ApiStepDefinitions.Send` | src/test/java/com/github/qaPaschalE/stepDefinitions/api/ApiStepDefinitions.java:165-171 | a thrown client call changes nothing; otherwise the response is kept in the field and the context, and the request state is reset when asked |
| `ApiSteps.ApiStepDefinitions.MakeGetRequest` | src/test/java/com/github/qaPaschalE/stepDefinitions/api/ApiStepDefinitions.java:158-172 | the resolved endpoint is sent with the query and path parameters, then the state is reset |
| `ApiSteps.ApiStepDefinitions.MakePostRequest` | src/test/java/com/github/qaPaschalE/stepDefinitions/api/ApiStepDefinitions.java:184-210 | endpoint resolved before the body; the body is sent as JSON without parameters; reset after |
| `ApiSteps.ApiStepDefinitions.MakePostRequestWithBody` | src/test/java/com/github/qaPaschalE/stepDefinitions/api/ApiStepDefinitions.java:211-237 | the same with the source fixed to "Inline" |
| `ApiSteps.ApiStepDefinitions.MakePutRequest` | src/test/java/com/github/qaPaschalE/stepDefinitions/api/ApiStepDefinitions.java:248-263 | the same as POST with verb PUT |
| `ApiSteps.ApiStepDefinitions.MakePostRequestWithTokenAndBody` | src/test/java/com/github/qaPaschalE/stepDefinitions/api/ApiStepDefinitions.java:264-299 | endpoint, then checked token, then body; the token is sent as OAuth 2; reset after |
| `ApiSteps.ApiStepDefinitions.CheckedToken` | src/test/java/com/github/qaPaschalE/stepDefinitions/api/ApiStepDefinitions.java:272-277 | the method agrees with `StoredToken` |
| `ApiSteps.ApiStepDefinitions.MakeGetRequestWithStoredToken` | src/test/java/com/github/qaPaschalE/stepDefinitions/api/ApiStepDefinitions.java:300-318 | token read first and unchecked; no parameters sent; the request state is not reset |
| `ApiSteps.ApiStepDefinitions.MakeDeleteRequest` | src/test/java/com/github/qaPaschalE/stepDefinitions/api/ApiStepDefinitions.java:324-335 | the resolved endpoint is sent without parameters; reset after |
| `ApiSteps.ApiStepDefinitions.MakeDeleteRequestWithStoredToken` | src/test/java/com/github/qaPaschalE/stepDefinitions/api/ApiStepDefinitions.java:336-363 | endpoint, then checked token; reset after |
| `ApiSteps.ApiStepDefinitions.MakeMultipartPostRequest` | src/test/java/com/github/qaPaschalE/stepDefinitions/api/ApiStepDefinitions.java:370-386 | the file goes as the "file" part of a POST; reset after |
| `ApiSteps.ApiStepDefinitions.StoreResponseField` | src/test/java/com/github/qaPaschalE/stepDefinitions/api/ApiStepDefinitions.java:97-115 | the field is stored as a string under the key as given; a missing field or blank key changes nothing |
| `ApiSteps.ApiStepDefinitions.ValidateStatus` | src/test/java/com/github/qaPaschalE/stepDefinitions/api/ApiStepDefinitions.java:434-438 | passes exactly when the status equals the expected one; the message shows the actual status |
| `ApiSteps.ApiStepDefinitions.ValidateResponseBodyContains` | src/test/java/com/github/qaPaschalE/stepDefinitions/api/ApiStepDefinitions.java:445-449 | passes exactly when the body contains the text |
| `ApiSteps.ApiStepDefinitions.ValidateJsonPathIdIsNotNull` | src/test/java/com/github/qaPaschalE/stepDefinitions/api/ApiStepDefinitions.java:453-457 | reads the context's last response; passes exactly when "id" is present |
| `Http.HeaderNamesIgnoreCase` | src/test/java/com/github/qaPaschalE/stepDefinitions/api/ApiStepDefinitions.java:464-468 | getHeader finds a header whatever the case of the name asked for: names equal up to ASCII case read the same value |
| `ApiSteps.ApiStepDefinitions.ValidateHeader` | src/test/java/com/github/qaPaschalE/stepDefinitions/api/ApiStepDefinitions.java:464-468 | passes exactly when the header, looked up whatever the case of its name, is present with the expected value |
| `ApiSteps.ApiStepDefinitions.ValidateResponseHeaderGreaterThan` | src/test/java/com/github/qaPaschalE/stepDefinitions/api/ApiStepDefinitions.java:515-526 | passes exactly when the header (name matched whatever its case) is present, parses as an int and exceeds the bound; each failure has its own message |
| `ApiSteps.ApiStepDefinitions.ValidateCookie` | src/test/java/com/github/qaPaschalE/stepDefinitions/api/ApiStepDefinitions.java:533-537 | passes exactly when the cookie is present with the expected value |
| `ApiSteps.ApiStepDefinitions.ValidateResponseTime` | src/test/java/com/github/qaPaschalE/stepDefinitions/api/ApiStepDefinitions.java:544-549 | passes exactly when the time is strictly below the bound |
| `ApiSteps.ApiStepDefinitions.ValidateJsonPath` | src/test/java/com/github/qaPaschalE/stepDefinitions/api/ApiStepDefinitions.java:557-562 | passes exactly when the path reads as the expected string |
| `DbSteps.SanitizeTable` | src/test/java/com/github/qaPaschalE/stepDefinitions/db/DbStepDefinitions.java:93-98 | accepts exactly the non-empty names of ASCII letters, digits and "_", unchanged; otherwise IllegalArgumentException naming the table |
| `DbSteps.RowCountQuery` | src/test/java/com/github/qaPaschalE/stepDefinitions/db/DbStepDefinitions.java:57 | the count query exists exactly for a valid table name |
| `DbSteps.RecordQuery` | src/test/java/com/github/qaPaschalE/stepDefinitions/db/DbStepDefinitions.java:68 | the record query exists exactly for a valid table name and has one placeholder for the value |
| `DbSteps.Clause` | src/test/java/com/github/qaPaschalE/stepDefinitions/db/DbStepDefinitions.java:107-108 | the column before the first "=" of the trimmed condition, plus " = ?"; a condition of only "=" has no parts[0] |
| `DbSteps.Clauses` | src/test/java/com/github/qaPaschalE/stepDefinitions/db/DbStepDefinitions.java:106-111 | one clause per condition, in order, or the exception of the first condition that has none |
| `DbSteps.ParameterizedQuery` | src/test/java/com/github/qaPaschalE/stepDefinitions/db/DbStepDefinitions.java:100-114 | the unchecked table name after "SELECT * FROM ", then the clauses joined by " AND " |
| `DbSteps.ClauseHasOnePlaceholder` | src/test/java/com/github/qaPaschalE/stepDefinitions/db/DbStepDefinitions.java:107-108 | a clause holds exactly one "?" when its condition holds none |
| `DbSteps.JoinedPlaceholders` | src/test/java/com/github/qaPaschalE/stepDefinitions/db/DbStepDefinitions.java:106-111 | joining one-"?" clauses gives as many "?" as clauses |
| `DbSteps.EachClauseOnePlaceholder` | src/test/java/com/github/qaPaschalE/stepDefinitions/db/DbStepDefinitions.java:101-108 | every clause of "?"-free conditions holds one "?" |
| `DbSteps.HeadHasNoPlaceholder` | src/test/java/com/github/qaPaschalE/stepDefinitions/db/DbStepDefinitions.java:102-104 | the query head holds no "?" when the table name holds none |
| `DbSteps.PlaceholderPerCondition` | src/test/java/com/github/qaPaschalE/stepDefinitions/db/DbStepDefinitions.java:100-114 | the built query has exactly one "?" per condition |
| `DbSteps.Binding` | src/test/java/com/github/qaPaschalE/stepDefinitions/db/DbStepDefinitions.java:119-125 | parts[1], or the text of the stored parameter it names; a condition without parts[1] fails |
| `DbSteps.Bindings` | src/test/java/com/github/qaPaschalE/stepDefinitions/db/DbStepDefinitions.java:117-128 | one bound string per condition, in order, or the first failure |
| `DbSteps.BindingsFitQuery` | src/test/java/com/github/qaPaschalE/stepDefinitions/db/DbStepDefinitions.java:79-81 | whenever binding succeeds the query builds, and it has one "?" per bound string |
| `DbSteps.MissingValue` | src/test/java/com/github/qaPaschalE/stepDefinitions/db/DbStepDefinitions.java:119-121 | "a" and "a=" have no parts[1] (split drops the trailing empty string), so binding fails |
| `DbSteps.DbStepDefinitions.StringParameterSet` | src/test/java/com/github/qaPaschalE/stepDefinitions/db/DbStepDefinitions.java:42-45 | stores the string under the key, nothing else changes |
| `DbSteps.DbStepDefinitions.SetIntParameter` | src/test/java/com/github/qaPaschalE/stepDefinitions/db/DbStepDefinitions.java:47-50 | stores the int under the key, nothing else changes |
| `DbSteps.DbStepDefinitions.BuildParameterizedQuery` | src/test/java/com/github/qaPaschalE/stepDefinitions/db/DbStepDefinitions.java:100-114 | the StringBuilder loop computes `ParameterizedQuery` |
| `DbSteps.DbStepDefinitions.ClauseFor` | src/test/java/com/github/qaPaschalE/stepDefinitions/db/DbStepDefinitions.java:107-108 | the loop body agrees with `Clause` |
| `DbSteps.DbStepDefinitions.SetParameters` | src/test/java/com/github/qaPaschalE/stepDefinitions/db/DbStepDefinitions.java:116-129 | the binding loop computes `Bindings` over the current stored parameters |
| `DbSteps.DbStepDefinitions.BindCondition` | src/test/java/com/github/qaPaschalE/stepDefinitions/db/DbStepDefinitions.java:119-127 | the loop body agrees with `Binding` |
| `UiSteps.GetLocator` | src/test/java/com/github/qaPaschalE/stepDefinitions/ui/UiStepDefinitions.java:22-31 | "xpath:" + e is XPath(e.trim()); any other selector with a "/" is XPath(selector.trim()); every other selector is CSS, untouched |
| `UiSteps.SlashTest` | src/test/java/com/github/qaPaschalE/stepDefinitions/ui/UiStepDefinitions.java:25 | the "//", "./" and contains-"/" tests together mean just "contains '/'" |
| `UiSteps.GetLocatorForText` | src/test/java/com/github/qaPaschalE/stepDefinitions/ui/UiStepDefinitions.java:33-41 | always XPath; a plain text is embedded in a contains-text query and can be read back out of it |
| `UiSteps.XPathPrefixRoundTrip` | src/test/java/com/github/qaPaschalE/stepDefinitions/ui/UiStepDefinitions.java:22-41 | "xpath:" + a trimmed expression gives back that expression from both builders |
| `UiSteps.ParseOrdinal` | src/test/java/com/github/qaPaschalE/stepDefinitions/ui/UiStepDefinitions.java:51-55 | the decimal value of the digits alone; no digits or an out-of-range value is NumberFormatException |
| `UiSteps.OrdinalOfNumber` | src/test/java/com/github/qaPaschalE/stepDefinitions/ui/UiStepDefinitions.java:51-55 | a number followed by a digit-free suffix ("21st") reads back as that number |
| `UiSteps.NonDigitsIgnored` | src/test/java/com/github/qaPaschalE/stepDefinitions/ui/UiStepDefinitions.java:53 | digit-free text anywhere in the ordinal does not change the result |
| `UiSteps.ThirdOrdinal` | src/test/java/com/github/qaPaschalE/stepDefinitions/ui/UiStepDefinitions.java:51-55 | "3rd" is 3 |
| `UiSteps.SplitOrdinal` | src/test/java/com/github/qaPaschalE/stepDefinitions/ui/UiStepDefinitions.java:51-55 | "1st2" is 12 |
| `UiSteps.Run` | src/test/java/com/github/qaPaschalE/stepDefinitions/ui/UiStepDefinitions.java:116-274 | interactions go out in order until the first that throws; the step passes exactly when none throws |
| `UiSteps.Interactions` | src/test/java/com/github/qaPaschalE/stepDefinitions/ui/UiStepDefinitions.java:116-274 | every interaction targets the picked element; check clicks exactly when unselected, uncheck exactly when selected; upload types the path, select chooses the option |
| `UiSteps.ElementAction` | src/test/java/com/github/qaPaschalE/stepDefinitions/ui/UiStepDefinitions.java:116-274 | a missing element fails with the step's message; the slot is emptied when the action passes, and always for check, uncheck and set value, whose failures become their own AssertionError; upload and select never empty it |
| `UiSteps.Nth` | src/test/java/com/github/qaPaschalE/stepDefinitions/ui/UiStepDefinitions.java:44-48 | succeeds exactly for 0 < index <= size, with element index-1; otherwise the matching message |
| `UiSteps.GetNthElement` | src/test/java/com/github/qaPaschalE/stepDefinitions/ui/UiStepDefinitions.java:43-49 | a null list is "No elements found.", then the 1-based pick (the helper of the select-from-nth step) |
| `UiSteps.OrdinalElement` | src/test/java/com/github/qaPaschalE/stepDefinitions/ui/UiStepDefinitions.java:775-789 | succeeds exactly when the list exists, the ordinal parses and is in 1..size; null is checked before parsing |
| `UiSteps.OrdinalPicks` | src/test/java/com/github/qaPaschalE/stepDefinitions/ui/UiStepDefinitions.java:775-789 | the written-out (k+1)th ordinal picks element k |
| `UiSteps.OrdinalIsGetNth` | src/test/java/com/github/qaPaschalE/stepDefinitions/ui/UiStepDefinitions.java:43-49 | the ordinal step and getNthElement pick the same element |
| `UiSteps.ElementAt` | src/test/java/com/github/qaPaschalE/stepDefinitions/ui/UiStepDefinitions.java:768-773 | 0-based: succeeds exactly for 0 <= index < size; too large fails with the selector message, negative with IndexOutOfBoundsException |
| `UiSteps.ZeroBasedIsOneBased` | src/test/java/com/github/qaPaschalE/stepDefinitions/ui/UiStepDefinitions.java:768-789 | the 0-based index i and the 1-based index i+1 pick the same element |
| `UiSteps.OrdinalAction` | src/test/java/com/github/qaPaschalE/stepDefinitions/ui/UiStepDefinitions.java:133-261 | a failed pick sends nothing; otherwise the gesture's interactions on the picked element |
| `UiSteps.ClickEnd` | src/test/java/com/github/qaPaschalE/stepDefinitions/ui/UiStepDefinitions.java:125-157 | a null or empty list fails; a click that goes through empties the list, a failed one keeps it |
| `UiSteps.TargetUrl` | src/test/java/com/github/qaPaschalE/stepDefinitions/ui/UiStepDefinitions.java:903-912 | a URL starting with "/" follows ui.base.url (which must be set); any other is used as given; the result always ends with the URL |
| `UiSteps.RelativeUrlFollowsBase` | src/test/java/com/github/qaPaschalE/stepDefinitions/ui/UiStepDefinitions.java:905-909 | what follows the base in the target is exactly the relative URL |
| `UiSteps.EventInteractions` | src/test/java/com/github/qaPaschalE/stepDefinitions/ui/UiStepDefinitions.java:568-582 | accepts exactly "click", "mouseover" and "keydown" in any case; anything else is IllegalArgumentException naming the event |
| `UiSteps.EventNamesIgnoreCase` | src/test/java/com/github/qaPaschalE/stepDefinitions/ui/UiStepDefinitions.java:568 | names with the same lower-case form dispatch alike |
| `UiSteps.TriggerEvent` | src/test/java/com/github/qaPaschalE/stepDefinitions/ui/UiStepDefinitions.java:564-587 | the element is looked up by CSS first, so a missing element is reported even for an unsupported event |
| `UiSteps.UiStepDefinitions.constructor` | src/test/java/com/github/qaPaschalE/stepDefinitions/ui/UiStepDefinitions.java:57-58 | both slots start null |
| `UiSteps.UiStepDefinitions.ActOnElement` | src/test/java/com/github/qaPaschalE/stepDefinitions/ui/UiStepDefinitions.java:116-274 | the single-element steps agree with `ElementAction`, slot included |
| `UiSteps.UiStepDefinitions.ClickTheElement` | src/test/java/com/github/qaPaschalE/stepDefinitions/ui/UiStepDefinitions.java:116-123 | click; the slot is emptied only if the click went through |
| `UiSteps.UiStepDefinitions.TypeIntoTheElement` | src/test/java/com/github/qaPaschalE/stepDefinitions/ui/UiStepDefinitions.java:159-166 | sendKeys; the slot is emptied only if it went through |
| `UiSteps.UiStepDefinitions.ClearTheElement` | src/test/java/com/github/qaPaschalE/stepDefinitions/ui/UiStepDefinitions.java:186-193 | clear; the slot is emptied only if it went through |
| `UiSteps.UiStepDefinitions.CheckTheElement` | src/test/java/com/github/qaPaschalE/stepDefinitions/ui/UiStepDefinitions.java:195-209 | click unless selected; the slot is always emptied |
| `UiSteps.UiStepDefinitions.UncheckTheElement` | src/test/java/com/github/qaPaschalE/stepDefinitions/ui/UiStepDefinitions.java:230-242 | click if selected; the slot is always emptied |
| `UiSteps.UiStepDefinitions.SetValueToTheElement` | src/test/java/com/github/qaPaschalE/stepDefinitions/ui/UiStepDefinitions.java:263-274 | clear then type; the slot is always emptied |
| `UiSteps.UiStepDefinitions.UploadFile` | src/test/java/com/github/qaPaschalE/stepDefinitions/ui/UiStepDefinitions.java:835-840 | types the path into the found element; unlike the other single-element steps the slot stays set, pass or fail |
| `UiSteps.UiStepDefinitions.SelectFromTheElement` | src/test/java/com/github/qaPaschalE/stepDefinitions/ui/UiStepDefinitions.java:860-864 | chooses the option by visible text in the found element; the slot stays set |
| `UiSteps.UiStepDefinitions.SelectOrdinal` | src/test/java/com/github/qaPaschalE/stepDefinitions/ui/UiStepDefinitions.java:776-788 | the written-out checks agree with `OrdinalElement` |
| `UiSteps.UiStepDefinitions.ActOnOrdinal` | src/test/java/com/github/qaPaschalE/stepDefinitions/ui/UiStepDefinitions.java:133-261 | the ordinal steps agree with `OrdinalAction` and leave the list as it was |
| `UiSteps.UiStepDefinitions.ClickNthElement` | src/test/java/com/github/qaPaschalE/stepDefinitions/ui/UiStepDefinitions.java:133-148 | clicks the picked element |
| `UiSteps.UiStepDefinitions.TypeIntoTheNthElement` | src/test/java/com/github/qaPaschalE/stepDefinitions/ui/UiStepDefinitions.java:168-184 | clears, then types into the picked element |
| `UiSteps.UiStepDefinitions.CheckTheNthElement` | src/test/java/com/github/qaPaschalE/stepDefinitions/ui/UiStepDefinitions.java:211-228 | clicks the picked element unless it is selected |
| `UiSteps.UiStepDefinitions.UncheckTheNthElement` | src/test/java/com/github/qaPaschalE/stepDefinitions/ui/UiStepDefinitions.java:244-261 | clicks the picked element if it is selected |
| `UiSteps.UiStepDefinitions.UploadFileToTheNthElement` | src/test/java/com/github/qaPaschalE/stepDefinitions/ui/UiStepDefinitions.java:843-857 | the ordinal pick with its own null message, then the path typed into the picked element |
| `UiSteps.UiStepDefinitions.SelectFromTheNthElement` | src/test/java/com/github/qaPaschalE/stepDefinitions/ui/UiStepDefinitions.java:828-832 | the int index goes through getNthElement; a failed pick sends nothing, otherwise the option is chosen in the picked element |
| `UiSteps.UiStepDefinitions.ClickTheFirstElement` | src/test/java/com/github/qaPaschalE/stepDefinitions/ui/UiStepDefinitions.java:125-131 | agrees with `ClickEnd` for the first element |
| `UiSteps.UiStepDefinitions.ClickTheLastElement` | src/test/java/com/github/qaPaschalE/stepDefinitions/ui/UiStepDefinitions.java:150-157 | agrees with `ClickEnd` for the last element |
| `UiSteps.UiStepDefinitions.SeeCountElementsIs` | src/test/java/com/github/qaPaschalE/stepDefinitions/ui/UiStepDefinitions.java:545-550 | passes exactly when the size matches, and only then empties the list |
| `UiSteps.UiStepDefinitions.GetEndElement` | src/test/java/com/github/qaPaschalE/stepDefinitions/ui/UiStepDefinitions.java:741-764 | the first or last found element becomes the found element; the list stays |
| `UiSteps.UiStepDefinitions.GetEndElementOf` | src/test/java/com/github/qaPaschalE/stepDefinitions/ui/UiStepDefinitions.java:732-755 | the first or last browser match for the selector becomes the found element |
| `UiSteps.UiStepDefinitions.GetElementAt` | src/test/java/com/github/qaPaschalE/stepDefinitions/ui/UiStepDefinitions.java:768-773 | the 0-based browser match becomes the found element, per `ElementAt` |
| `UiSteps.UiStepDefinitions.GetOrdinalElement` | src/test/java/com/github/qaPaschalE/stepDefinitions/ui/UiStepDefinitions.java:775-789 | the ordinal pick from the found list becomes the found element |
| `UiSteps.UiStepDefinitions.GetElementsBySelector` | src/test/java/com/github/qaPaschalE/stepDefinitions/ui/UiStepDefinitions.java:726-730 | the list is stored before it is checked, so an empty list is kept although the step fails |
| `UiSteps.UiStepDefinitions.GetElementBySelector` | src/test/java/com/github/qaPaschalE/stepDefinitions/ui/UiStepDefinitions.java:720-724 | the first match becomes the found element; no match throws and changes nothing |
| `UiSteps.UiStepDefinitions.GoToUrl` | src/test/java/com/github/qaPaschalE/stepDefinitions/ui/UiStepDefinitions.java:902-912 | navigates to `TargetUrl`, or fails before navigating when the base is missing |
| `UiSteps.UiStepDefinitions.TriggerEventStep` | src/test/java/com/github/qaPaschalE/stepDefinitions/ui/UiStepDefinitions.java:564-587 | the step agrees with `TriggerEvent` |
| `LegacyApiSteps.LegacyRequest` | src/test/java/org/example/stepDefinitions/api/ApiStepDefinitions.java:54-89 | nothing is sent without a specification; only GET carries the parameters, as query parameters; POST and PUT carry the body as JSON |
| `LegacyApiSteps.ParamsOnlyReachGet` | src/test/java/org/example/stepDefinitions/api/ApiStepDefinitions.java:63-89 | POST, PUT and DELETE send the same request whatever parameters were set |
| `LegacyApiSteps.ApiStepDefinitions.SharedParameterSlot` | src/test/java/org/example/stepDefinitions/api/ApiStepDefinitions.java:32-40 | setQueryParam then setPathParam under one name leave a single entry holding the path value: the two setters share one map |
| `LegacyApiSteps.ApiStepDefinitions.constructor` | src/test/java/org/example/stepDefinitions/api/ApiStepDefinitions.java:16-18 | no response, a null specification and no parameters |
| `LegacyApiSteps.ApiStepDefinitions.SetBaseUrl` | src/test/java/org/example/stepDefinitions/api/ApiStepDefinitions.java:21-25 | sets the base URI and replaces the specification with a fresh one |
| `LegacyApiSteps.ApiStepDefinitions.SetHeader` | src/test/java/org/example/stepDefinitions/api/ApiStepDefinitions.java:27-30 | fails on a null specification; otherwise adds the header |
| `LegacyApiSteps.ApiStepDefinitions.SetQueryParam` | src/test/java/org/example/stepDefinitions/api/ApiStepDefinitions.java:32-35 | writes the shared parameter map |
| `LegacyApiSteps.ApiStepDefinitions.SetPathParam` | src/test/java/org/example/stepDefinitions/api/ApiStepDefinitions.java:37-40 | writes the same shared map |
| `LegacyApiSteps.ApiStepDefinitions.SetCookie` | src/test/java/org/example/stepDefinitions/api/ApiStepDefinitions.java:42-45 | fails on a null specification; otherwise adds the cookie |
| `LegacyApiSteps.ApiStepDefinitions.SetBearerToken` | src/test/java/org/example/stepDefinitions/api/ApiStepDefinitions.java:47-50 | fails on a null specification; otherwise sets the OAuth 2 token |
| `LegacyApiSteps.ApiStepDefinitions.ResetRequest` | src/test/java/org/example/stepDefinitions/api/ApiStepDefinitions.java:131-134 | a fresh specification and no parameters |
| `LegacyApiSteps.ApiStepDefinitions.Dispatch` | src/test/java/org/example/stepDefinitions/api/ApiStepDefinitions.java:54-89 | a failed build or send changes nothing; a response is kept and then the specification and parameters are reset; the base URI stays |
| `LegacyApiSteps.ApiStepDefinitions.MakeGetRequest` | src/test/java/org/example/stepDefinitions/api/ApiStepDefinitions.java:54-61 | sends every parameter as a query parameter, then resets |
| `LegacyApiSteps.ApiStepDefinitions.MakePostRequest` | src/test/java/org/example/stepDefinitions/api/ApiStepDefinitions.java:63-71 | sends the body as JSON, drops the parameters, then resets |
| `LegacyApiSteps.ApiStepDefinitions.MakePutRequest` | src/test/java/org/example/stepDefinitions/api/ApiStepDefinitions.java:73-81 | the same with PUT |
| `LegacyApiSteps.ApiStepDefinitions.MakeDeleteRequest` | src/test/java/org/example/stepDefinitions/api/ApiStepDefinitions.java:83-89 | sends no body and drops the parameters, then resets |
| `LegacyApiSteps.ApiStepDefinitions.ValidateStatus` | src/test/java/org/example/stepDefinitions/api/ApiStepDefinitions.java:93-97 | passes exactly when the latest status equals the expected one |
| `LegacyApiSteps.ApiStepDefinitions.ValidateResponseBodyContains` | src/test/java/org/example/stepDefinitions/api/ApiStepDefinitions.java:99-103 | passes exactly when the latest body contains the text |
| `LegacyApiSteps.ApiStepDefinitions.ValidateHeader` | src/test/java/org/example/stepDefinitions/api/ApiStepDefinitions.java:105-109 | passes exactly when the header, looked up whatever the case of its name, has the expected value |
| `LegacyApiSteps.ApiStepDefinitions.ValidateCookie` | src/test/java/org/example/stepDefinitions/api/ApiStepDefinitions.java:111-115 | passes exactly when the cookie has the expected value |
| `LegacyApiSteps.ApiStepDefinitions.ValidateResponseTime` | src/test/java/org/example/stepDefinitions/api/ApiStepDefinitions.java:117-121 | passes exactly when the time is strictly below the bound |
| `LegacyApiSteps.ApiStepDefinitions.ValidateJsonPath` | src/test/java/org/example/stepDefinitions/api/ApiStepDefinitions.java:123-127 | passes exactly when the path reads as the expected string |
| `JavaLang.Trim` | src/test/java/com/github/qaPaschalE/stepDefinitions/api/ApiStepDefinitions.java:576 | String.trim: the infix left after removing every character at or below U+0020 from both ends |
| `JavaLang.Split` | src/test/java/com/github/qaPaschalE/stepDefinitions/db/DbStepDefinitions.java:101 | String.split: the pieces between separators with the trailing empty ones dropped |
| `JavaLang.JoinPieces` | src/test/java/com/github/qaPaschalE/stepDefinitions/db/DbStepDefinitions.java:101 | joining the pieces with the separator gives the text back |
| `JavaLang.ParseInt` | src/main/java/com/github/qaPaschalE/util/ConfigLoader.java:78 | Integer.parseInt: succeeds exactly when an optional sign is followed by at least one digit, all digits, with a signed decimal value in the int range, and then returns that value; otherwise NumberFormatException |
| `JavaLang.ParseIntToString` | src/main/java/com/github/qaPaschalE/util/ConfigLoader.java:78 | parseInt inverts Integer.toString over the whole int range |

## Left out

- I/O is left out: logging, printing, file reading, the JDBC connection and
  result sets, WebDriver sessions, waits and screenshots. The client, the
  browser and the database are parameters or abstract data.
- JSON parsing and JSON path evaluation are not modelled. A response
  carries the strings its JSON paths read, and JSON validity is a
  predicate.
- The JSON-array length steps and the JSON-file steps
  (`ApiStepDefinitions.java` 387-424 and 474-508) are left out. They parse
  JSON and read files.
- The UI steps that neither read nor write the two "last found" slots are
  left out: visibility and text assertions, waits, scrolling, cookies,
  storage, windows, and selecting by value from a CSS selector. So are the
  find steps that only differ in the selector text they build. Each is a
  single driver call.
- The whole org.example UI step file, the hooks, the runners and
  WebDriverUtils are left out. They are thin driver calls or process
  management.
- Randomness is left out. `Entropy` picks the random values. The model
  proves their shape and range, but not their distribution.
- Case folding covers ASCII only. Non-ASCII case mapping is left out, and
  so are the non-ASCII digits `Character.digit` accepts.
- Null arguments from the step framework are not modelled. Cucumber always
  passes strings.
- `RestAssured.baseURI` is a process-wide static. It is modelled as a field
  of each API class.
- `HeaderOf`: a response is modelled with one value per header name,
  keyed by the lower-case name. A header repeated in one response is not
  modelled, so which of its values getHeader returns is not either.
- The multipart content type is chosen inside the client. It is not
  modelled.
- TestNG's " expected [..] but found [..]" message suffix is not kept. The
  message of a NullPointerException raised by the JVM is not kept either.
- `Placeholders.Expand` follows the code, not the naive reading of the
  step. Read naively, the step substitutes values literally. The code
  passes them to `Matcher.appendReplacement`, which expands `$` group
  references and `\` escapes. `DollarInConfigValue` shows the consequence.
- `LegacyApiSteps.ApiStepDefinitions.Dispatch`: a request sent before
  `setBaseUrl` hands a null specification to the client, which refuses it.
  The exception type and message come from RestAssured and are not
  modelled. It appears as the same null failure as the setters.
- `UiSteps.Interactions`: an exception from `isSelected` itself is not
  modelled; only the interactions that act on the page can throw. Wrapping
  a non-select element in `Select` throws; that is modelled as the
  option-choosing interaction throwing.
- `UiSteps.UiStepDefinitions.GetElementBySelector`: `findElement` throws
  NoSuchElementException when nothing matches. It appears as a generic
  driver failure.
- The state the browser keeps between steps is not modelled. A click does
  not change what a later `find` returns. Each step returns the
  interactions it sent instead.
