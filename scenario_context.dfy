/** ScenarioContext: the per-scenario key/value store shared by the steps.
    Keys are validated after trimming but stored as given; values may be
    null; the last API response lives under a reserved key. */
module ScenarioContexts {
  import opened JavaLang
  import opened Http

  /** What the store can hold: null, a String, an API response, or any other
      object, known here only by its toString() text. */
  datatype Value = Null | Str(s: string) | Resp(response: Response) | Other(text: string)

  /** value.toString() for a non-null value. */
  function Show(v: Value): string
    requires !v.Null?
  {
    match v
    case Str(s) => s
    case Resp(r) => r.objectText
    case Other(t) => t
  }

  const LastApiResponse: string := "lastApiResponse"

  const KeyMessage: string := "Key must not be null or empty."

  /** The lookup getContext performs, over a snapshot of the map. */
  function Lookup(context: map<string, Value>, key: string): (r: Result<Value>)
    ensures IsBlank(key) ==> r == Err(IllegalArgument(KeyMessage))
    ensures !IsBlank(key) && key !in context ==>
      r == Err(NullPointer("No value found in context for key: " + key))
    ensures !IsBlank(key) && key in context ==> r == Ok(context[key])
  {
    if Trim(key) == [] then Err(IllegalArgument(KeyMessage))
    else if key !in context then Err(NullPointer("No value found in context for key: " + key))
    else Ok(context[key])
  }

  /** The lookup getResponse performs: the stored response, a
      NullPointerException when there is none or it is null, and a
      ClassCastException when something else was stored under the key. */
  function ResponseOf(context: map<string, Value>): (r: Result<Response>)
    ensures LastApiResponse !in context ==>
      r == Err(NullPointer("No value found in context for key: " + LastApiResponse))
    ensures LastApiResponse in context && context[LastApiResponse].Null? ==>
      r == Err(NullPointer("No API response found in context."))
    ensures LastApiResponse in context && context[LastApiResponse].Resp? ==>
      r == Ok(context[LastApiResponse].response)
    ensures LastApiResponse in context && (context[LastApiResponse].Str? || context[LastApiResponse].Other?) ==>
      r == Err(ClassCast)
  {
    assert !IsTrimmable(LastApiResponse[0]);
    match Lookup(context, LastApiResponse)
    case Err(e) => Err(e)
    case Ok(Null) => Err(NullPointer("No API response found in context."))
    case Ok(Resp(resp)) => Ok(resp)
    case Ok(_) => Err(ClassCast)
  }

  class ScenarioContext {
    var context: map<string, Value>

    constructor()
      ensures context == map[]
    {
      context := map[];
    }

    /** setContext: rejects a blank key; otherwise stores the value under the
        key exactly as given, replacing any earlier value. */
    method SetContext(key: string, value: Value) returns (r: Outcome)
      modifies this
      ensures IsBlank(key) ==> r == Fail(IllegalArgument(KeyMessage)) && context == old(context)
      ensures !IsBlank(key) ==> r == Pass && context == old(context)[key := value]
    {
      if Trim(key) == [] {
        return Fail(IllegalArgument(KeyMessage));
      }
      context := context[key := value];
      return Pass;
    }

    /** getContext: the value stored under the key, possibly null. */
    method GetContext(key: string) returns (r: Result<Value>)
      ensures IsBlank(key) ==> r == Err(IllegalArgument(KeyMessage))
      ensures !IsBlank(key) && key !in context ==>
        r == Err(NullPointer("No value found in context for key: " + key))
      ensures !IsBlank(key) && key in context ==> r == Ok(context[key])
    {
      if Trim(key) == [] {
        return Err(IllegalArgument(KeyMessage));
      }
      if key !in context {
        return Err(NullPointer("No value found in context for key: " + key));
      }
      return Ok(context[key]);
    }

    /** contains: whether the key is present, after the same key check. */
    method Contains(key: string) returns (r: Result<bool>)
      ensures IsBlank(key) ==> r == Err(IllegalArgument(KeyMessage))
      ensures !IsBlank(key) ==> r == Ok(key in context)
    {
      if Trim(key) == [] {
        return Err(IllegalArgument(KeyMessage));
      }
      return Ok(key in context);
    }

    method ClearContext()
      modifies this
      ensures context == map[]
    {
      context := map[];
    }

    /** setResponse: rejects null; otherwise stores the response under
        "lastApiResponse", replacing whatever was there. */
    method SetResponse(response: Option<Response>) returns (r: Outcome)
      modifies this
      ensures response.None? ==>
        r == Fail(IllegalArgument("API response must not be null.")) && context == old(context)
      ensures response.Some? ==>
        r == Pass && context == old(context)[LastApiResponse := Resp(response.value)]
      ensures response.Some? ==> ResponseOf(context) == Ok(response.value)
    {
      if response.None? {
        return Fail(IllegalArgument("API response must not be null."));
      }
      context := context[LastApiResponse := Resp(response.value)];
      return Pass;
    }

    /** getResponse: the last stored response. */
    method GetResponse() returns (r: Result<Response>)
      ensures r == ResponseOf(context)
    {
      var v := GetContext(LastApiResponse);
      match v
      case Err(e) => return Err(e);
      case Ok(Null) => return Err(NullPointer("No API response found in context."));
      case Ok(Resp(resp)) => return Ok(resp);
      case Ok(_) => return Err(ClassCast);
    }
  }

  /** Keys are checked trimmed but stored untrimmed: storing under " a" leaves
      what is stored under "a" as it was, and a key that differs from the
      reserved one leaves the last response as it was. */
  lemma KeysAreNotTrimmed(context: map<string, Value>, key: string, other: string, v: Value)
    requires key != other
    ensures Lookup(context[key := v], other) == Lookup(context, other)
    ensures key != LastApiResponse ==> ResponseOf(context[key := v]) == ResponseOf(context)
  {
  }

  /** A value stored under "lastApiResponse" by setContext is what getResponse
      reads back: a response comes back, a string is a ClassCastException. */
  lemma SetContextOverwritesResponse(context: map<string, Value>, v: Value)
    ensures v.Resp? ==> ResponseOf(context[LastApiResponse := v]) == Ok(v.response)
    ensures v.Str? ==> ResponseOf(context[LastApiResponse := v]) == Err(ClassCast)
    ensures v.Null? ==> ResponseOf(context[LastApiResponse := v]).Err?
  {
  }
}
