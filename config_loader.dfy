/** ConfigLoader: read-only lookups over the properties loaded from
    config.properties. The loaded file is a map from key to value; the
    system properties the loader consults are passed in. */
module ConfigLoader {
  import opened JavaLang

  type Properties = map<string, string>

  /** getProperty(key, defaultValue): the configured value, else the default. */
  function GetProperty(props: Properties, key: string, default: string): (v: string)
    ensures key in props ==> v == props[key]
    ensures key !in props ==> v == default
  {
    if key in props then props[key] else default
  }

  /** getTags: a non-empty "cucumber.tags" system property wins; otherwise the
      configured tags, otherwise "@smoke". */
  function GetTags(props: Properties, systemTags: Option<string>): (v: string)
    ensures systemTags.Some? && systemTags.value != "" ==> v == systemTags.value
    ensures (systemTags.None? || systemTags.value == "") && "cucumber.tags" in props ==>
      v == props["cucumber.tags"]
    ensures (systemTags.None? || systemTags.value == "") && "cucumber.tags" !in props ==>
      v == "@smoke"
  {
    if systemTags.Some? && systemTags.value != "" then systemTags.value
    else GetProperty(props, "cucumber.tags", "@smoke")
  }

  function GetUiBaseUrl(props: Properties): (r: Result<string>)
    ensures r.Ok? <==> "ui.base.url" in props && props["ui.base.url"] != ""
    ensures r.Ok? ==> r.value == props["ui.base.url"]
    ensures r.Err? ==> r.error == MissingProperty("Missing or empty 'ui.base.url' in config.properties")
  {
    if "ui.base.url" in props && props["ui.base.url"] != "" then Ok(props["ui.base.url"])
    else Err(MissingProperty("Missing or empty 'ui.base.url' in config.properties"))
  }

  function GetApiBaseUrl(props: Properties): (r: Result<string>)
    ensures r.Ok? <==> "api.base.url" in props && props["api.base.url"] != ""
    ensures r.Ok? ==> r.value == props["api.base.url"]
    ensures r.Err? ==> r.error == MissingProperty("Missing or empty 'api.base.url' in config.properties")
  {
    if "api.base.url" in props && props["api.base.url"] != "" then Ok(props["api.base.url"])
    else Err(MissingProperty("Missing or empty 'api.base.url' in config.properties"))
  }

  function GetDbUrl(props: Properties): string
  {
    GetProperty(props, "db.url", "jdbc:mysql://localhost:3306/mydb")
  }

  function GetDbUsername(props: Properties): string
  {
    GetProperty(props, "db.username", "root")
  }

  function GetDbPassword(props: Properties): string
  {
    GetProperty(props, "db.password", "password")
  }

  function GetBrowserType(props: Properties): string
  {
    GetProperty(props, "browser.type", "chrome")
  }

  /** The DB and browser getters fall back to their fixed defaults exactly when
      the key is absent, and otherwise return the configured value as is. */
  lemma FixedDefaults(props: Properties)
    ensures "db.url" !in props ==> GetDbUrl(props) == "jdbc:mysql://localhost:3306/mydb"
    ensures "db.username" !in props ==> GetDbUsername(props) == "root"
    ensures "db.password" !in props ==> GetDbPassword(props) == "password"
    ensures "browser.type" !in props ==> GetBrowserType(props) == "chrome"
    ensures "db.url" in props ==> GetDbUrl(props) == props["db.url"]
    ensures "db.username" in props ==> GetDbUsername(props) == props["db.username"]
    ensures "db.password" in props ==> GetDbPassword(props) == props["db.password"]
    ensures "browser.type" in props ==> GetBrowserType(props) == props["browser.type"]
  {
  }

  /** The default waits are decimal ints. */
  lemma DefaultsParse()
    ensures ParseInt("10") == Ok(10) && ParseInt("30") == Ok(30)
  {
    var ten, thirty := "10", "30";
    assert DigitsValue(ten) == 10 by { assert ten[..1] == "1"; }
    assert DigitsValue(thirty) == 30 by { assert thirty[..1] == "3"; }
    ParseDigits(ten);
    ParseDigits(thirty);
  }

  /** getImplicitWaitTime: "webdriver.implicit.wait" as an int, 10 by default. */
  function GetImplicitWaitTime(props: Properties): (r: Result<int>)
    ensures "webdriver.implicit.wait" !in props ==> r == Ok(10)
    ensures "webdriver.implicit.wait" in props && ParseInt(props["webdriver.implicit.wait"]).Ok? ==>
      r == ParseInt(props["webdriver.implicit.wait"])
    ensures "webdriver.implicit.wait" in props && ParseInt(props["webdriver.implicit.wait"]).Err? ==>
      r == Err(Runtime("Invalid value for 'webdriver.implicit.wait' in config.properties"))
  {
    DefaultsParse();
    match ParseInt(GetProperty(props, "webdriver.implicit.wait", "10"))
    case Ok(n) => Ok(n)
    case Err(_) => Err(Runtime("Invalid value for 'webdriver.implicit.wait' in config.properties"))
  }

  /** getPageLoadTimeout: "webdriver.page.load.timeout" as an int, 30 by default. */
  function GetPageLoadTimeout(props: Properties): (r: Result<int>)
    ensures "webdriver.page.load.timeout" !in props ==> r == Ok(30)
    ensures "webdriver.page.load.timeout" in props && ParseInt(props["webdriver.page.load.timeout"]).Ok? ==>
      r == ParseInt(props["webdriver.page.load.timeout"])
    ensures "webdriver.page.load.timeout" in props && ParseInt(props["webdriver.page.load.timeout"]).Err? ==>
      r == Err(Runtime("Invalid value for 'webdriver.page.load.timeout' in config.properties"))
  {
    DefaultsParse();
    match ParseInt(GetProperty(props, "webdriver.page.load.timeout", "30"))
    case Ok(n) => Ok(n)
    case Err(_) => Err(Runtime("Invalid value for 'webdriver.page.load.timeout' in config.properties"))
  }

  /** Appends "/" to a directory that does not already end with one. */
  function WithTrailingSlash(dir: string): (r: string)
    ensures EndsWith(r, "/")
    ensures EndsWith(dir, "/") ==> r == dir
    ensures !EndsWith(dir, "/") ==> r == dir + "/"
  {
    if EndsWith(dir, "/") then dir else dir + "/"
  }

  /** The directory loadJsonFile reads from. */
  function JsonDirectory(props: Properties): (r: string)
    ensures EndsWith(r, "/")
  {
    WithTrailingSlash(GetProperty(props, "json.file.directory", "src/test/resources/json/"))
  }

  /** The slash rule is idempotent, and the default directory is kept as is. */
  lemma JsonDirectoryRule(props: Properties, dir: string)
    ensures WithTrailingSlash(WithTrailingSlash(dir)) == WithTrailingSlash(dir)
    ensures "json.file.directory" !in props ==> JsonDirectory(props) == "src/test/resources/json/"
    ensures "json.file.directory" in props ==>
      JsonDirectory(props) == WithTrailingSlash(props["json.file.directory"])
  {
  }
}
