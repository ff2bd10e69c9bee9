/** The browser step definitions: how a selector becomes a locator, how an
    ordinal such as "3rd" picks an element, and the two slots that carry a
    found element (or list of elements) from a "find" step to the action
    that uses it and are emptied again once the action is done. The browser
    is a parameter: what it finds for a locator, which elements are
    selected, and which interactions it refuses with an exception. */
module UiSteps {
  import opened JavaLang
  import opened ConfigLoader

  // ---------------------------------------------------------------------------
  // Locators

  /** A Selenium By: an XPath expression or a CSS selector. */
  datatype Locator = XPath(expression: string) | Css(selector: string)

  const XPathPrefix: string := "xpath:"

  /** '/' occurs in s; the Java test (starts with "//" or "./", or contains
      "/") comes down to this. */
  lemma SlashTest(s: string)
    ensures (StartsWith(s, "//") || StartsWith(s, "./") || Contains(s, "/")) <==> '/' in s
  {
    var slash := "/";
    if '/' in s {
      var i :| 0 <= i < |s| && s[i] == '/';
      assert s[i..i + 1] == slash;
      assert OccursAt(s, slash, i);
    }
    if Contains(s, slash) {
      var i :| 0 <= i <= |s| && OccursAt(s, slash, i);
      assert s[i] == s[i..i + 1][0];
    }
    if StartsWith(s, "//") {
      assert s[0] == s[..2][0];
    }
    if StartsWith(s, "./") {
      assert s[1] == s[..2][1];
    }
  }

  /** Trimming twice is trimming once. */
  lemma TrimIdempotent(s: string)
    ensures Trim(Trim(s)) == Trim(s)
  {
    TrimUntrimmed(Trim(s));
  }

  /** getLocator: "xpath:" followed by an expression gives that expression,
      trimmed; any other selector holding a '/' is a trimmed XPath; every
      other selector is used untouched as CSS. */
  function GetLocator(selector: string): (r: Locator)
    ensures r.XPath? ==> Trim(r.expression) == r.expression
    ensures r.Css? <==> !StartsWith(selector, XPathPrefix) && '/' !in selector
    ensures r.Css? ==> r.selector == selector
    ensures StartsWith(selector, XPathPrefix) ==> r == XPath(Trim(selector[|XPathPrefix|..]))
    ensures !StartsWith(selector, XPathPrefix) && '/' in selector ==> r == XPath(Trim(selector))
  {
    SlashTest(selector);
    if StartsWith(selector, XPathPrefix) then
      TrimIdempotent(selector[6..]);
      XPath(Trim(selector[6..]))
    else if StartsWith(selector, "//") || StartsWith(selector, "./") || Contains(selector, "/") then
      TrimIdempotent(selector);
      XPath(Trim(selector))
    else
      Css(selector)
  }

  const TextQueryPrefix: string := "//*[contains(text(), '"
  const TextQuerySuffix: string := "')]"

  /** getLocatorForText: an "xpath:" text is an explicit expression; any
      other text becomes a query for elements whose text contains it, and the
      text can be read back out of that query. */
  function GetLocatorForText(text: string): (r: Locator)
    ensures r.XPath?
    ensures StartsWith(text, XPathPrefix) ==> r.expression == Trim(text[|XPathPrefix|..])
    ensures !StartsWith(text, XPathPrefix) ==>
      && StartsWith(r.expression, TextQueryPrefix)
      && EndsWith(r.expression, TextQuerySuffix)
      && |TextQueryPrefix| + |TextQuerySuffix| <= |r.expression|
      && r.expression[|TextQueryPrefix|..|r.expression| - |TextQuerySuffix|] == text
  {
    if StartsWith(text, XPathPrefix) then
      XPath(Trim(text[6..]))
    else
      var q := TextQueryPrefix + text + TextQuerySuffix;
      assert q[..|TextQueryPrefix|] == TextQueryPrefix;
      assert q[|q| - |TextQuerySuffix|..] == TextQuerySuffix;
      assert q[|TextQueryPrefix|..|q| - |TextQuerySuffix|] == text;
      XPath(q)
  }

  /** An explicit "xpath:" expression that is already trimmed comes back
      unchanged from both locator builders. */
  lemma XPathPrefixRoundTrip(e: string)
    requires Trim(e) == e
    ensures GetLocator(XPathPrefix + e) == XPath(e)
    ensures GetLocatorForText(XPathPrefix + e) == XPath(e)
  {
    var s := XPathPrefix + e;
    assert s[..|XPathPrefix|] == XPathPrefix;
    assert s[|XPathPrefix|..] == e;
  }

  // ---------------------------------------------------------------------------
  // Ordinals

  predicate NoDigits(s: string) { forall i | 0 <= i < |s| :: !IsDigit(s[i]) }

  /** parseOrdinal: every non-digit is dropped and what is left is read as a
      decimal int; no digits at all, or a value beyond the int range, is a
      NumberFormatException. */
  function ParseOrdinal(ordinal: string): (r: Result<int>)
    ensures r.Ok? <==> DigitsOf(ordinal) != [] && DigitsValue(DigitsOf(ordinal)) <= IntMax
    ensures r.Ok? ==> r.value == DigitsValue(DigitsOf(ordinal))
    ensures r.Err? ==> r.error == NumberFormat(DigitsOf(ordinal))
  {
    var digits := DigitsOf(ordinal);
    if digits == [] then ParseInt(digits)
    else
      ParseDigits(digits);
      ParseInt(digits)
  }

  lemma {:induction false} DigitsOfAppend(a: string, b: string)
    ensures DigitsOf(a + b) == DigitsOf(a) + DigitsOf(b)
    decreases |a|
  {
    if a == [] {
      assert a + b == b;
    } else {
      assert (a + b)[0] == a[0];
      assert (a + b)[1..] == a[1..] + b;
      DigitsOfAppend(a[1..], b);
    }
  }

  lemma {:induction false} DigitsOfDigits(s: string)
    requires AllDigits(s)
    ensures DigitsOf(s) == s
    decreases |s|
  {
    if s != [] {
      DigitsOfDigits(s[1..]);
    }
  }

  lemma {:induction false} DigitsOfNoDigits(s: string)
    requires NoDigits(s)
    ensures DigitsOf(s) == []
    decreases |s|
  {
    if s != [] {
      DigitsOfNoDigits(s[1..]);
    }
  }

  /** A number written out and followed by a suffix without digits ("3rd",
      "21st", "2nd") reads back as that number. */
  lemma OrdinalOfNumber(n: nat, suffix: string)
    requires n <= IntMax && NoDigits(suffix)
    ensures ParseOrdinal(IntToString(n) + suffix) == Ok(n)
  {
    var digits := NatToDigits(n);
    assert IntToString(n) == digits;
    DigitsOfAppend(digits, suffix);
    DigitsOfDigits(digits);
    DigitsOfNoDigits(suffix);
    assert DigitsOf(digits + suffix) == digits;
  }

  /** Non-digits anywhere are ignored, so "1st2" reads as "12". */
  lemma NonDigitsIgnored(a: string, x: string, b: string)
    requires NoDigits(x)
    ensures ParseOrdinal(a + x + b) == ParseOrdinal(a + b)
  {
    DigitsOfAppend(a + x, b);
    DigitsOfAppend(a, x);
    DigitsOfAppend(a, b);
    DigitsOfNoDigits(x);
    assert DigitsOf(a + x + b) == DigitsOf(a + b);
  }

  /** "3rd" is 3. */
  lemma ThirdOrdinal()
    ensures ParseOrdinal("3rd") == Ok(3)
  {
    var three, rd := "3", "rd";
    assert NoDigits(rd);
    assert IntToString(3) == three;
    OrdinalOfNumber(3, rd);
    assert three + rd == "3rd";
  }

  /** "1st2" is 12. */
  lemma SplitOrdinal()
    ensures ParseOrdinal("1st2") == Ok(12)
  {
    var one, two, st := "1", "2", "st";
    assert NoDigits(st);
    NonDigitsIgnored(one, st, two);
    TwelveOrdinal(one + two);
    assert one + st + two == "1st2";
  }

  lemma TwelveOrdinal(twelve: string)
    requires twelve == "12"
    ensures ParseOrdinal(twelve) == Ok(12)
  {
    assert AllDigits(twelve);
    DigitsOfDigits(twelve);
    assert DigitsValue(twelve) == 12 by {
      var one := twelve[..1];
      assert one == ['1'] && one[..0] == [];
      assert DigitsValue(one) == 1;
      assert twelve[|twelve| - 1] == '2';
    }
  }




  // ---------------------------------------------------------------------------
  // The browser

  /** A handle on one element of the page. */
  datatype Element = Element(id: nat)

  /** What a step asks of the browser. */
  datatype Interaction =
    | Press(element: Element)                   // WebElement.click, Actions.click
    | SendKeys(element: Element, keys: string)
    | ClearField(element: Element)
    | Hover(element: Element)                   // Actions.moveToElement
    | Navigate(url: string)                     // WebDriver.get
    | ChooseOption(element: Element, text: string)  // new Select(e).selectByVisibleText

  /** The browser as the steps see it: the elements a locator finds (in
      document order), whether an element is selected, and which
      interactions fail with an exception. */
  datatype Browser = Browser(
    find: Locator -> seq<Element>,
    selected: Element -> bool,
    throws: Interaction -> bool)

  /** The interactions a step sent (the last one is the one that threw, if
      any) and how the step ended. */
  datatype Effect = Effect(sent: seq<Interaction>, outcome: Outcome)

  /** Sending interactions in order; the first that throws ends the run. */
  function Run(browser: Browser, actions: seq<Interaction>): (e: Effect)
    ensures e.outcome == Pass <==> forall i | 0 <= i < |actions| :: !browser.throws(actions[i])
    ensures e.outcome == Pass ==> e.sent == actions
    ensures e.outcome.Fail? ==>
      && e.outcome == Fail(DriverError)
      && 1 <= |e.sent| <= |actions| && e.sent == actions[..|e.sent|]
      && browser.throws(e.sent[|e.sent| - 1])
      && forall i | 0 <= i < |e.sent| - 1 :: !browser.throws(e.sent[i])
    decreases |actions|
  {
    if actions == [] then Effect([], Pass)
    else if browser.throws(actions[0]) then Effect([actions[0]], Fail(DriverError))
    else
      var rest := Run(browser, actions[1..]);
      Effect([actions[0]] + rest.sent, rest.outcome)
  }

  /** What a step does to the element it has picked. */
  datatype Gesture =
    | Click
    | TypeText(text: string)      // sendKeys only
    | ClearText
    | Check                       // click unless already selected
    | Uncheck                     // click if selected
    | SetValue(value: string)     // clear, then sendKeys
    | Retype(text: string)        // clear, then sendKeys (the nth-element typing step)
    | Upload(path: string)        // sendKeys of a file path
    | SelectText(text: string)    // pick a dropdown option by its visible text

  function Interactions(browser: Browser, g: Gesture, e: Element): (r: seq<Interaction>)
    ensures forall i | 0 <= i < |r| :: r[i].Press? || r[i].SendKeys? || r[i].ClearField? || r[i].ChooseOption?
    ensures forall i | 0 <= i < |r| :: r[i].element == e
    ensures g.Check? ==> (r == [] <==> browser.selected(e))
    ensures g.Uncheck? ==> (r == [] <==> !browser.selected(e))
  {
    match g
    case Click => [Press(e)]
    case TypeText(text) => [SendKeys(e, text)]
    case ClearText => [ClearField(e)]
    case Check => if browser.selected(e) then [] else [Press(e)]
    case Uncheck => if browser.selected(e) then [Press(e)] else []
    case SetValue(value) => [ClearField(e), SendKeys(e, value)]
    case Retype(text) => [ClearField(e), SendKeys(e, text)]
    case Upload(path) => [SendKeys(e, path)]
    case SelectText(text) => [ChooseOption(e, text)]
  }

  // ---------------------------------------------------------------------------
  // The single found element

  /** The assertion message when no element was found. */
  function NoElementMessage(g: Gesture): string
  {
    match g
    case Click => "No element found to click."
    case TypeText(_) => "No element found to type into."
    case ClearText => "No element found to clear."
    case Check => "No element found to check."
    case Uncheck => "No element found to uncheck."
    case SetValue(_) => "No element found to set value."
    case Retype(_) => "No element found to type into."
    case Upload(_) => "No element found to upload file to."
    case SelectText(_) => "No element found to select from."
  }

  /** The actions that wrap the interaction in try/catch/finally: a failure
      becomes an AssertionError with its own message and the slot is emptied
      whatever happens. */
  predicate Guarded(g: Gesture) { g.Check? || g.Uncheck? || g.SetValue? }

  /** The steps that leave lastFoundElement set whatever happens: uploading a
      file and choosing an option. */
  predicate Keeps(g: Gesture) { g.Upload? || g.SelectText? }

  function GuardMessage(g: Gesture): string
    requires Guarded(g)
  {
    match g
    case Check => "Failed to check the element."
    case Uncheck => "Failed to uncheck the element."
    case SetValue(value) => "Failed to set value '" + value + "' to the element."
  }

  /** A step on the last found element, and what lastFoundElement holds
      afterwards. */
  datatype ElementStep = ElementStep(sent: seq<Interaction>, outcome: Outcome, element: Option<Element>)

  function ElementAction(found: Option<Element>, g: Gesture, browser: Browser): (s: ElementStep)
    ensures found.None? ==> s == ElementStep([], Fail(AssertionFailed(NoElementMessage(g))), None)
    ensures s.outcome == Pass <==>
      found.Some? && forall i | 0 <= i < |s.sent| :: !browser.throws(s.sent[i])
    ensures found.Some? ==> s.sent == Run(browser, Interactions(browser, g, found.value)).sent
    ensures s.element == None <==> found.None? || (!Keeps(g) && (s.outcome == Pass || Guarded(g)))
    ensures s.element != None ==> s.element == found && (Keeps(g) || s.outcome == Fail(DriverError))
    ensures Keeps(g) ==> s.element == found
    ensures found.Some? && Guarded(g) && s.outcome.Fail? ==> s.outcome == Fail(AssertionFailed(GuardMessage(g)))
  {
    if found.None? then ElementStep([], Fail(AssertionFailed(NoElementMessage(g))), None)
    else
      var run := Run(browser, Interactions(browser, g, found.value));
      if Guarded(g) then
        ElementStep(run.sent, if run.outcome.Pass? then Pass else Fail(AssertionFailed(GuardMessage(g))), None)
      else if Keeps(g) then
        ElementStep(run.sent, run.outcome, found)
      else
        ElementStep(run.sent, run.outcome, if run.outcome.Pass? then None else found)
  }

  // ---------------------------------------------------------------------------
  // Picking from the found list

  /** The 1-based pick shared by getNthElement and the ordinal steps. */
  function Nth(elements: seq<Element>, index: int): (r: Result<Element>)
    ensures r.Ok? <==> 0 < index <= |elements|
    ensures r.Ok? ==> r.value == elements[index - 1]
    ensures index <= 0 ==> r == Err(AssertionFailed("Index must be greater than 0."))
    ensures index > |elements| ==> r == Err(AssertionFailed("Element at index " + IntToString(index) + " not found."))
  {
    if index <= 0 then Err(AssertionFailed("Index must be greater than 0."))
    else if index - 1 >= |elements| then Err(AssertionFailed("Element at index " + IntToString(index) + " not found."))
    else Ok(elements[index - 1])
  }

  /** getNthElement(index) */
  function GetNthElement(found: Option<seq<Element>>, index: int): (r: Result<Element>)
    ensures found.None? ==> r == Err(AssertionFailed("No elements found."))
    ensures found.Some? ==> r == Nth(found.value, index)
  {
    if found.None? then Err(AssertionFailed("No elements found.")) else Nth(found.value, index)
  }

  /** The ordinal steps: the list is checked first, then the ordinal is
      parsed, then the 1-based index is checked. */
  function OrdinalElement(found: Option<seq<Element>>, ordinal: string, nullMessage: string): (r: Result<Element>)
    ensures r.Ok? <==>
      found.Some? && ParseOrdinal(ordinal).Ok? && 0 < ParseOrdinal(ordinal).value <= |found.value|
    ensures r.Ok? ==> r.value == found.value[ParseOrdinal(ordinal).value - 1]
    ensures found.None? ==> r == Err(AssertionFailed(nullMessage))
    ensures found.Some? && ParseOrdinal(ordinal).Err? ==> r == Err(ParseOrdinal(ordinal).error)
  {
    if found.None? then Err(AssertionFailed(nullMessage))
    else
      var index :- ParseOrdinal(ordinal);
      Nth(found.value, index)
  }

  /** Written out, the (k+1)-th ordinal picks element k. */
  lemma OrdinalPicks(elements: seq<Element>, k: nat, suffix: string, nullMessage: string)
    requires k < |elements| && k + 1 <= IntMax && NoDigits(suffix)
    ensures OrdinalElement(Some(elements), IntToString(k + 1) + suffix, nullMessage) == Ok(elements[k])
  {
    OrdinalOfNumber(k + 1, suffix);
  }

  /** The "I get {ordinal} element" step and getNthElement pick the same
      element whenever the ordinal parses. */
  lemma OrdinalIsGetNth(found: Option<seq<Element>>, ordinal: string)
    requires found.Some? && ParseOrdinal(ordinal).Ok?
    ensures OrdinalElement(found, ordinal, "No elements found.") == GetNthElement(found, ParseOrdinal(ordinal).value)
  {
  }

  /** The by-selector nth step counts from 0: it demands size > index, and
      a negative index reaches List.get and throws. */
  function ElementAt(elements: seq<Element>, index: int, selector: string): (r: Result<Element>)
    ensures r.Ok? <==> 0 <= index < |elements|
    ensures r.Ok? ==> r.value == elements[index]
    ensures index >= |elements| ==>
      r == Err(AssertionFailed("Element at index " + IntToString(index) + " not found for selector: " + selector))
    ensures index < 0 ==> r == Err(IndexOutOfBounds)
  {
    if !(|elements| > index) then
      Err(AssertionFailed("Element at index " + IntToString(index) + " not found for selector: " + selector))
    else if index < 0 then Err(IndexOutOfBounds)
    else Ok(elements[index])
  }

  /** The 0-based and the 1-based pick agree on every index in range. */
  lemma ZeroBasedIsOneBased(elements: seq<Element>, index: int, selector: string)
    requires 0 <= index
    ensures ElementAt(elements, index, selector).Ok? <==> Nth(elements, index + 1).Ok?
    ensures ElementAt(elements, index, selector).Ok? ==>
      ElementAt(elements, index, selector).value == Nth(elements, index + 1).value
  {
  }

  /** An ordinal step's interactions on the element it picks; the list is
      left as it was. */
  function OrdinalAction(found: Option<seq<Element>>, ordinal: string, nullMessage: string, g: Gesture, browser: Browser)
    : (e: Effect)
    ensures OrdinalElement(found, ordinal, nullMessage).Err? ==>
      e == Effect([], Fail(OrdinalElement(found, ordinal, nullMessage).error))
    ensures OrdinalElement(found, ordinal, nullMessage).Ok? ==>
      e == Run(browser, Interactions(browser, g, OrdinalElement(found, ordinal, nullMessage).value))
  {
    match OrdinalElement(found, ordinal, nullMessage)
    case Err(error) => Effect([], Fail(error))
    case Ok(element) => Run(browser, Interactions(browser, g, element))
  }

  /** Which end of the list a first/last step takes. */
  datatype End = First | Last

  function Pick(elements: seq<Element>, end: End): Element
    requires elements != []
  {
    if end == First then elements[0] else elements[|elements| - 1]
  }

  /** iClickTheFirstElement / iClickTheLastElement, and what
      lastFoundElements holds afterwards: emptied only when the click went
      through. */
  datatype ListStep = ListStep(sent: seq<Interaction>, outcome: Outcome, elements: Option<seq<Element>>)

  function ClickEnd(found: Option<seq<Element>>, end: End, browser: Browser): (s: ListStep)
    ensures found.None? || found.value == [] ==>
      s == ListStep([], Fail(AssertionFailed("No elements found to click.")), found)
    ensures s.outcome == Pass <==> found.Some? && found.value != [] && !browser.throws(Press(Pick(found.value, end)))
    ensures s.outcome == Pass ==> s.sent == [Press(Pick(found.value, end))] && s.elements == None
    ensures s.outcome.Fail? ==> s.elements == found
  {
    if found.None? || found.value == [] then ListStep([], Fail(AssertionFailed("No elements found to click.")), found)
    else
      var run := Run(browser, [Press(Pick(found.value, end))]);
      ListStep(run.sent, run.outcome, if run.outcome.Pass? then None else found)
  }

  // ---------------------------------------------------------------------------
  // Navigation and events

  /** iGoToURL: a URL starting with "/" is put after ui.base.url (which must
      be configured); any other URL is used as given. */
  function TargetUrl(config: Properties, url: string): (r: Result<string>)
    ensures !StartsWith(url, "/") ==> r == Ok(url)
    ensures StartsWith(url, "/") ==> (r.Ok? <==> GetUiBaseUrl(config).Ok?)
    ensures StartsWith(url, "/") && r.Err? ==> r == Err(GetUiBaseUrl(config).error)
    ensures r.Ok? ==> EndsWith(r.value, url)
    ensures r.Ok? && StartsWith(url, "/") ==> StartsWith(r.value, config["ui.base.url"])
  {
    if StartsWith(url, "/") then
      var baseUrl :- GetUiBaseUrl(config);
      var full := baseUrl + url;
      assert full[|full| - |url|..] == url;
      assert full[..|baseUrl|] == baseUrl;
      Ok(full)
    else
      assert url[|url| - |url|..] == url;
      Ok(url)
  }

  /** The relative URL is what follows the configured base. */
  lemma RelativeUrlFollowsBase(config: Properties, url: string)
    requires StartsWith(url, "/") && GetUiBaseUrl(config).Ok?
    ensures TargetUrl(config, url).Ok?
    ensures TargetUrl(config, url).value[|config["ui.base.url"]|..] == url
  {
    var full := config["ui.base.url"] + url;
    assert full[|config["ui.base.url"]|..] == url;
  }

  /** Keys.ENTER */
  const EnterKey: string := [0xE007 as char]

  const ClickEvent: string := "click"
  const MouseOverEvent: string := "mouseover"
  const KeyDownEvent: string := "keydown"

  /** iTriggerEvent's dispatch on the lower-cased event name. */
  function EventInteractions(eventName: string, e: Element): (r: Result<seq<Interaction>>)
    ensures r.Ok? <==> ToLower(eventName) == ClickEvent || ToLower(eventName) == MouseOverEvent
                       || ToLower(eventName) == KeyDownEvent
    ensures r.Err? ==> r.error == IllegalArgument("Unsupported event: " + eventName)
    ensures r.Ok? ==> |r.value| == 1
  {
    var name := ToLower(eventName);
    if name == ClickEvent then Ok([Press(e)])
    else if name == MouseOverEvent then Ok([Hover(e)])
    else if name == KeyDownEvent then Ok([SendKeys(e, EnterKey)])
    else Err(IllegalArgument("Unsupported event: " + eventName))
  }

  /** Two event names with the same lower-case form dispatch alike. */
  lemma EventNamesIgnoreCase(a: string, b: string, e: Element)
    requires ToLower(a) == ToLower(b)
    ensures EventInteractions(a, e).Ok? <==> EventInteractions(b, e).Ok?
    ensures EventInteractions(a, e).Ok? ==> EventInteractions(a, e).value == EventInteractions(b, e).value
  {
  }

  /** iTriggerEvent: the element is looked up by CSS first, so a missing
      element is reported even for an unsupported event. */
  function TriggerEvent(eventName: string, selector: string, browser: Browser): (e: Effect)
    ensures browser.find(Css(selector)) == [] ==>
      e == Effect([], Fail(AssertionFailed("Element with selector '" + selector + "' not found.")))
    ensures browser.find(Css(selector)) != [] ==>
      var dispatch := EventInteractions(eventName, browser.find(Css(selector))[0]);
      && (dispatch.Err? ==> e == Effect([], Fail(dispatch.error)))
      && (dispatch.Ok? ==> e == Run(browser, dispatch.value))
  {
    var found := browser.find(Css(selector));
    if found == [] then Effect([], Fail(AssertionFailed("Element with selector '" + selector + "' not found.")))
    else
      match EventInteractions(eventName, found[0])
      case Err(error) => Effect([], Fail(error))
      case Ok(actions) => Run(browser, actions)
  }

  // ---------------------------------------------------------------------------
  // The step definitions

  class UiStepDefinitions {
    /** The element the last "find element" step found; null is None. */
    var lastFoundElement: Option<Element>
    /** The elements the last "find elements" step found; null is None. */
    var lastFoundElements: Option<seq<Element>>

    constructor()
      ensures lastFoundElement == None && lastFoundElements == None
    {
      lastFoundElement := None;
      lastFoundElements := None;
    }

    // -- Actions on the last found element

    method ActOnElement(g: Gesture, browser: Browser) returns (r: Outcome, sent: seq<Interaction>)
      modifies this`lastFoundElement
      ensures var s := ElementAction(old(lastFoundElement), g, browser);
        r == s.outcome && sent == s.sent && lastFoundElement == s.element
    {
      if lastFoundElement.None? {
        return Fail(AssertionFailed(NoElementMessage(g))), [];
      }
      var run := Run(browser, Interactions(browser, g, lastFoundElement.value));
      sent := run.sent;
      if Guarded(g) {
        r := if run.outcome.Pass? then Pass else Fail(AssertionFailed(GuardMessage(g)));
        lastFoundElement := None;
      } else {
        r := run.outcome;
        if r.Pass? && !Keeps(g) {
          lastFoundElement := None;
        }
      }
    }

    method ClickTheElement(browser: Browser) returns (r: Outcome, sent: seq<Interaction>)
      modifies this`lastFoundElement
      ensures var s := ElementAction(old(lastFoundElement), Click, browser);
        r == s.outcome && sent == s.sent && lastFoundElement == s.element
    {
      r, sent := ActOnElement(Click, browser);
    }

    method TypeIntoTheElement(text: string, browser: Browser) returns (r: Outcome, sent: seq<Interaction>)
      modifies this`lastFoundElement
      ensures var s := ElementAction(old(lastFoundElement), TypeText(text), browser);
        r == s.outcome && sent == s.sent && lastFoundElement == s.element
    {
      r, sent := ActOnElement(TypeText(text), browser);
    }

    method ClearTheElement(browser: Browser) returns (r: Outcome, sent: seq<Interaction>)
      modifies this`lastFoundElement
      ensures var s := ElementAction(old(lastFoundElement), ClearText, browser);
        r == s.outcome && sent == s.sent && lastFoundElement == s.element
    {
      r, sent := ActOnElement(ClearText, browser);
    }

    method CheckTheElement(browser: Browser) returns (r: Outcome, sent: seq<Interaction>)
      modifies this`lastFoundElement
      ensures var s := ElementAction(old(lastFoundElement), Check, browser);
        r == s.outcome && sent == s.sent && lastFoundElement == s.element
    {
      r, sent := ActOnElement(Check, browser);
    }

    method UncheckTheElement(browser: Browser) returns (r: Outcome, sent: seq<Interaction>)
      modifies this`lastFoundElement
      ensures var s := ElementAction(old(lastFoundElement), Uncheck, browser);
        r == s.outcome && sent == s.sent && lastFoundElement == s.element
    {
      r, sent := ActOnElement(Uncheck, browser);
    }

    method SetValueToTheElement(value: string, browser: Browser) returns (r: Outcome, sent: seq<Interaction>)
      modifies this`lastFoundElement
      ensures var s := ElementAction(old(lastFoundElement), SetValue(value), browser);
        r == s.outcome && sent == s.sent && lastFoundElement == s.element
    {
      r, sent := ActOnElement(SetValue(value), browser);
    }

    /** iUploadFile: the path is typed into the found element, which stays
        found. */
    method UploadFile(filePath: string, browser: Browser) returns (r: Outcome, sent: seq<Interaction>)
      modifies this`lastFoundElement
      ensures var s := ElementAction(old(lastFoundElement), Upload(filePath), browser);
        r == s.outcome && sent == s.sent && lastFoundElement == s.element
      ensures lastFoundElement == old(lastFoundElement)
    {
      r, sent := ActOnElement(Upload(filePath), browser);
    }

    /** iSelect(optionText): the option is chosen in the found element, which
        stays found. */
    method SelectFromTheElement(optionText: string, browser: Browser) returns (r: Outcome, sent: seq<Interaction>)
      modifies this`lastFoundElement
      ensures var s := ElementAction(old(lastFoundElement), SelectText(optionText), browser);
        r == s.outcome && sent == s.sent && lastFoundElement == s.element
      ensures lastFoundElement == old(lastFoundElement)
    {
      r, sent := ActOnElement(SelectText(optionText), browser);
    }

    // -- Actions on the last found list

    /** The ordinal lookup as the steps write it out. */
    method SelectOrdinal(ordinal: string, nullMessage: string) returns (r: Result<Element>)
      ensures r == OrdinalElement(lastFoundElements, ordinal, nullMessage)
    {
      if lastFoundElements.None? {
        return Err(AssertionFailed(nullMessage));
      }
      var elements := lastFoundElements.value;
      var parsed := ParseOrdinal(ordinal);
      if parsed.Err? {
        return Err(parsed.error);
      }
      var index := parsed.value;
      if index <= 0 {
        return Err(AssertionFailed("Index must be greater than 0."));
      }
      var zeroBasedIndex := index - 1;
      if zeroBasedIndex >= |elements| {
        return Err(AssertionFailed("Element at index " + IntToString(index) + " not found."));
      }
      return Ok(elements[zeroBasedIndex]);
    }

    method ActOnOrdinal(ordinal: string, nullMessage: string, g: Gesture, browser: Browser)
      returns (r: Outcome, sent: seq<Interaction>)
      ensures OrdinalAction(lastFoundElements, ordinal, nullMessage, g, browser) == Effect(sent, r)
    {
      var picked := SelectOrdinal(ordinal, nullMessage);
      if picked.Err? {
        return Fail(picked.error), [];
      }
      var run := Run(browser, Interactions(browser, g, picked.value));
      return run.outcome, run.sent;
    }

    method ClickNthElement(ordinal: string, browser: Browser) returns (r: Outcome, sent: seq<Interaction>)
      ensures OrdinalAction(lastFoundElements, ordinal, "No elements found to click.", Click, browser) == Effect(sent, r)
    {
      r, sent := ActOnOrdinal(ordinal, "No elements found to click.", Click, browser);
    }

    method TypeIntoTheNthElement(text: string, ordinal: string, browser: Browser) returns (r: Outcome, sent: seq<Interaction>)
      ensures OrdinalAction(lastFoundElements, ordinal, "No elements found to type into.", Retype(text), browser)
              == Effect(sent, r)
    {
      r, sent := ActOnOrdinal(ordinal, "No elements found to type into.", Retype(text), browser);
    }

    method CheckTheNthElement(ordinal: string, browser: Browser) returns (r: Outcome, sent: seq<Interaction>)
      ensures OrdinalAction(lastFoundElements, ordinal, "No elements found to check.", Check, browser) == Effect(sent, r)
    {
      r, sent := ActOnOrdinal(ordinal, "No elements found to check.", Check, browser);
    }

    method UncheckTheNthElement(ordinal: string, browser: Browser) returns (r: Outcome, sent: seq<Interaction>)
      ensures OrdinalAction(lastFoundElements, ordinal, "No elements found to uncheck.", Uncheck, browser) == Effect(sent, r)
    {
      r, sent := ActOnOrdinal(ordinal, "No elements found to uncheck.", Uncheck, browser);
    }

    /** iUploadFileToTheNthElement: the ordinal pick, then the path is typed
        into that element. */
    method UploadFileToTheNthElement(filePath: string, ordinal: string, browser: Browser)
      returns (r: Outcome, sent: seq<Interaction>)
      ensures OrdinalAction(lastFoundElements, ordinal, "No elements found to upload file to.", Upload(filePath), browser)
              == Effect(sent, r)
    {
      r, sent := ActOnOrdinal(ordinal, "No elements found to upload file to.", Upload(filePath), browser);
    }

    /** iSelectFromTheNthElement: getNthElement with the step's 1-based int,
        then the option is chosen there; the list stays. */
    method SelectFromTheNthElement(optionText: string, index: int, browser: Browser)
      returns (r: Outcome, sent: seq<Interaction>)
      ensures GetNthElement(lastFoundElements, index).Err? ==>
        r == Fail(GetNthElement(lastFoundElements, index).error) && sent == []
      ensures GetNthElement(lastFoundElements, index).Ok? ==>
        Effect(sent, r) == Run(browser, [ChooseOption(GetNthElement(lastFoundElements, index).value, optionText)])
    {
      var picked := GetNthElement(lastFoundElements, index);
      if picked.Err? {
        return Fail(picked.error), [];
      }
      var run := Run(browser, Interactions(browser, SelectText(optionText), picked.value));
      return run.outcome, run.sent;
    }

    method ClickTheEndElement(end: End, browser: Browser) returns (r: Outcome, sent: seq<Interaction>)
      modifies this`lastFoundElements
      ensures var s := ClickEnd(old(lastFoundElements), end, browser);
        r == s.outcome && sent == s.sent && lastFoundElements == s.elements
    {
      if lastFoundElements.None? || lastFoundElements.value == [] {
        return Fail(AssertionFailed("No elements found to click.")), [];
      }
      var run := Run(browser, [Press(Pick(lastFoundElements.value, end))]);
      r, sent := run.outcome, run.sent;
      if r.Pass? {
        lastFoundElements := None;
      }
    }

    method ClickTheFirstElement(browser: Browser) returns (r: Outcome, sent: seq<Interaction>)
      modifies this`lastFoundElements
      ensures var s := ClickEnd(old(lastFoundElements), First, browser);
        r == s.outcome && sent == s.sent && lastFoundElements == s.elements
    {
      r, sent := ClickTheEndElement(First, browser);
    }

    method ClickTheLastElement(browser: Browser) returns (r: Outcome, sent: seq<Interaction>)
      modifies this`lastFoundElements
      ensures var s := ClickEnd(old(lastFoundElements), Last, browser);
        r == s.outcome && sent == s.sent && lastFoundElements == s.elements
    {
      r, sent := ClickTheEndElement(Last, browser);
    }

    /** iSeeCountElementsIs: the list is emptied only when the count matches. */
    method SeeCountElementsIs(expectedCount: int) returns (r: Outcome)
      modifies this`lastFoundElements
      ensures old(lastFoundElements).None? ==>
        r == Fail(AssertionFailed("No elements found to count.")) && lastFoundElements == None
      ensures old(lastFoundElements).Some? ==> (r == Pass <==> |old(lastFoundElements).value| == expectedCount)
      ensures old(lastFoundElements).Some? && r.Fail? ==>
        r == Fail(AssertionFailed("Incorrect element count.")) && lastFoundElements == old(lastFoundElements)
      ensures r == Pass ==> lastFoundElements == None
    {
      if lastFoundElements.None? {
        return Fail(AssertionFailed("No elements found to count."));
      }
      if |lastFoundElements.value| != expectedCount {
        return Fail(AssertionFailed("Incorrect element count."));
      }
      lastFoundElements := None;
      return Pass;
    }

    // -- Steps that fill the slots

    /** iGetFirstElement() / iGetLastElement(): one end of the found list
        becomes the found element; the list stays. */
    method GetEndElement(end: End) returns (r: Outcome)
      modifies this`lastFoundElement
      ensures old(lastFoundElements).None? || old(lastFoundElements).value == [] ==>
        && r == Fail(AssertionFailed(if end == First then "No elements found to retrieve the first element."
                                     else "No elements found to retrieve the last element."))
        && lastFoundElement == old(lastFoundElement)
      ensures old(lastFoundElements).Some? && old(lastFoundElements).value != [] ==>
        r == Pass && lastFoundElement == Some(Pick(old(lastFoundElements).value, end))
    {
      if lastFoundElements.None? || lastFoundElements.value == [] {
        var message := if end == First then "No elements found to retrieve the first element."
                       else "No elements found to retrieve the last element.";
        return Fail(AssertionFailed(message));
      }
      lastFoundElement := Some(Pick(lastFoundElements.value, end));
      return Pass;
    }

    /** iGetFirstElement(selector) / iGetLastElement(selector): the browser's
        own list for the selector, not the found list. */
    method GetEndElementOf(selector: string, end: End, browser: Browser) returns (r: Outcome)
      modifies this`lastFoundElement
      ensures var found := browser.find(GetLocator(selector));
        && (found == [] ==>
              r == Fail(AssertionFailed("No elements found for selector: " + selector))
              && lastFoundElement == old(lastFoundElement))
        && (found != [] ==> r == Pass && lastFoundElement == Some(Pick(found, end)))
    {
      var elements := browser.find(GetLocator(selector));
      if elements == [] {
        return Fail(AssertionFailed("No elements found for selector: " + selector));
      }
      lastFoundElement := Some(Pick(elements, end));
      return Pass;
    }

    /** iGetNthElement(selector, index), counting from 0. */
    method GetElementAt(selector: string, index: int, browser: Browser) returns (r: Outcome)
      modifies this`lastFoundElement
      ensures var picked := ElementAt(browser.find(GetLocator(selector)), index, selector);
        && (picked.Err? ==> r == Fail(picked.error) && lastFoundElement == old(lastFoundElement))
        && (picked.Ok? ==> r == Pass && lastFoundElement == Some(picked.value))
    {
      var elements := browser.find(GetLocator(selector));
      if !(|elements| > index) {
        return Fail(AssertionFailed("Element at index " + IntToString(index) + " not found for selector: " + selector));
      }
      if index < 0 {
        return Fail(IndexOutOfBounds);
      }
      lastFoundElement := Some(elements[index]);
      return Pass;
    }

    /** iGetNthElement(ordinal): the ordinal picks from the found list. */
    method GetOrdinalElement(ordinal: string) returns (r: Outcome)
      modifies this`lastFoundElement
      ensures var picked := OrdinalElement(old(lastFoundElements), ordinal, "No elements found.");
        && (picked.Err? ==> r == Fail(picked.error) && lastFoundElement == old(lastFoundElement))
        && (picked.Ok? ==> r == Pass && lastFoundElement == Some(picked.value))
    {
      var picked := SelectOrdinal(ordinal, "No elements found.");
      if picked.Err? {
        return Fail(picked.error);
      }
      lastFoundElement := Some(picked.value);
      return Pass;
    }

    /** iGetElementsBySelector: the list is stored before it is checked, so
        an empty result is kept even though the step fails. */
    method GetElementsBySelector(selector: string, browser: Browser) returns (r: Outcome)
      modifies this`lastFoundElements
      ensures lastFoundElements == Some(browser.find(GetLocator(selector)))
      ensures r == Pass <==> browser.find(GetLocator(selector)) != []
      ensures r.Fail? ==> r == Fail(AssertionFailed("No elements found for selector: " + selector))
    {
      lastFoundElements := Some(browser.find(GetLocator(selector)));
      if lastFoundElements.value == [] {
        return Fail(AssertionFailed("No elements found for selector: " + selector));
      }
      return Pass;
    }

    /** iGetElementBySelector: findElement throws when nothing matches and
        otherwise returns the first match. */
    method GetElementBySelector(selector: string, browser: Browser) returns (r: Outcome)
      modifies this`lastFoundElement
      ensures var found := browser.find(GetLocator(selector));
        && (found == [] ==> r == Fail(DriverError) && lastFoundElement == old(lastFoundElement))
        && (found != [] ==> r == Pass && lastFoundElement == Some(found[0]))
    {
      var found := browser.find(GetLocator(selector));
      if found == [] {
        return Fail(DriverError);
      }
      lastFoundElement := Some(found[0]);
      return Pass;
    }

    // -- Navigation and events

    method GoToUrl(url: string, config: Properties, browser: Browser) returns (r: Outcome, sent: seq<Interaction>)
      ensures TargetUrl(config, url).Err? ==> r == Fail(TargetUrl(config, url).error) && sent == []
      ensures TargetUrl(config, url).Ok? ==> Effect(sent, r) == Run(browser, [Navigate(TargetUrl(config, url).value)])
    {
      var target := url;
      if StartsWith(url, "/") {
        var baseUrl := GetUiBaseUrl(config);
        if baseUrl.Err? {
          return Fail(baseUrl.error), [];
        }
        target := baseUrl.value + url;
      }
      var run := Run(browser, [Navigate(target)]);
      return run.outcome, run.sent;
    }

    method TriggerEventStep(eventName: string, selector: string, browser: Browser) returns (r: Outcome, sent: seq<Interaction>)
      ensures TriggerEvent(eventName, selector, browser) == Effect(sent, r)
    {
      var found := browser.find(Css(selector));
      if found == [] {
        return Fail(AssertionFailed("Element with selector '" + selector + "' not found.")), [];
      }
      var element := found[0];
      var name := ToLower(eventName);
      var actions: seq<Interaction>;
      if name == "click" {
        actions := [Press(element)];
      } else if name == "mouseover" {
        actions := [Hover(element)];
      } else if name == "keydown" {
        actions := [SendKeys(element, EnterKey)];
      } else {
        return Fail(IllegalArgument("Unsupported event: " + eventName)), [];
      }
      var run := Run(browser, actions);
      return run.outcome, run.sent;
    }
  }
}
