/** The `TunetAutoLogin` client: resolving and checking the credentials, the
    browser launch options, the verdict after the login form is submitted, and
    the result reported by a run. Browser calls are not modelled; what they
    return is passed in as plain values. */
module TunetClient {
  import opened Wrappers
  import opened StatusCheck

  // ---------------------------------------------------------------------------
  // Credentials (`__init__`)
  // ---------------------------------------------------------------------------

  /** The process environment: variable name to value. */
  type Environment = map<string, string>

  const UsernameVariable: string := "TUNET_USERNAME"
  const PasswordVariable: string := "TUNET_PASSWORD"

  /** The portal address every client logs in at. */
  const LoginUrl: string := "http://auth6.tsinghua.edu.cn/srun_portal_pc?ac_id=163&theme=pro"

  /** Python truthiness of an optional string: present and not empty. */
  predicate Truthy(v: Option<string>)
  {
    v.Some? && v.value != ""
  }

  /** `os.getenv(name)`: the value, or `None` when the variable is unset. */
  function Getenv(env: Environment, name: string): Option<string>
  {
    if name in env then Some(env[name]) else None
  }

  /** `argument or os.getenv(name)`: the argument when it is truthy, else the
      environment's value (which may itself be unset or empty). */
  function Resolve(argument: Option<string>, env: Environment, name: string): Option<string>
  {
    if Truthy(argument) then argument else Getenv(env, name)
  }

  /** The resolved username and password of a constructed client. */
  datatype Credentials = Credentials(username: string, password: string)

  /** The `ValueError` raised when a credential is missing. */
  datatype ConfigError = MissingCredentials

  /** Resolve both credentials and reject a missing or empty one. */
  function ResolveCredentials(username: Option<string>, password: Option<string>, env: Environment)
    : (r: Result<Credentials, ConfigError>)
    ensures r.Success? ==> r.value.username != "" && r.value.password != ""
  {
    var u := Resolve(username, env, UsernameVariable);
    var p := Resolve(password, env, PasswordVariable);
    if !Truthy(u) || !Truthy(p) then Failure(MissingCredentials)
    else Success(Credentials(u.value, p.value))
  }

  /** An environment variable that is set to a non-empty value. */
  predicate EnvProvides(env: Environment, name: string)
  {
    name in env && env[name] != ""
  }

  /** Construction fails exactly when, for the username or for the password,
      neither a non-empty argument nor a non-empty environment variable is given. */
  lemma CredentialsRejectedIff(username: Option<string>, password: Option<string>, env: Environment)
    ensures ResolveCredentials(username, password, env).Failure? <==>
      (!Truthy(username) && !EnvProvides(env, UsernameVariable)) ||
      (!Truthy(password) && !EnvProvides(env, PasswordVariable))
  {
  }

  /** A non-empty argument wins over the environment; otherwise the
      environment's value is taken. */
  lemma CredentialsComeFromArgumentOrEnvironment(username: Option<string>, password: Option<string>, env: Environment)
    requires ResolveCredentials(username, password, env).Success?
    ensures var c := ResolveCredentials(username, password, env).value;
      && (Truthy(username) ==> c.username == username.value)
      && (!Truthy(username) ==> c.username == env[UsernameVariable])
      && (Truthy(password) ==> c.password == password.value)
      && (!Truthy(password) ==> c.password == env[PasswordVariable])
  {
  }

  /** With no arguments and neither variable set, construction fails before
      any browser is started. */
  lemma NoCredentialsAnywhereFails(env: Environment)
    requires UsernameVariable !in env && PasswordVariable !in env
    ensures ResolveCredentials(None, None, env) == Failure(MissingCredentials)
  {
  }

  // ---------------------------------------------------------------------------
  // Browser launch options (`setup_driver`)
  // ---------------------------------------------------------------------------

  const HeadlessFlag: string := "--headless"

  /** The compatibility flags always passed to the browser, in order. */
  const CompatibilityFlags: seq<string> := [
    "--no-sandbox",
    "--disable-dev-shm-usage",
    "--disable-gpu",
    "--window-size=1920,1080",
    "--disable-web-security",
    "--allow-running-insecure-content",
    "--disable-extensions",
    UserAgentFlag
  ]

  /** The browser identity the portal is shown. */
  const UserAgentFlag: string :=
    "--user-agent=Mozilla/5.0 (X11; Linux x86_64) AppleWebKit/537.36 (KHTML, like Gecko) "
    + "Chrome/91.0.4472.124 Safari/537.36"

  /** Page-load timeout set on a new browser, in seconds. */
  const PageLoadTimeout: int := 60

  /** Starting the browser: `webdriver.Chrome` raised, or it started but
      setting the page-load timeout raised, or both succeeded. */
  datatype Launch = LaunchFailed | TimeoutNotSet | Launched

  /** The option list handed to the browser: the headless flag, first and only
      when asked for, then the compatibility flags. */
  function ChromeOptions(headless: bool): (options: seq<string>)
    ensures HeadlessFlag in options <==> headless
    ensures headless ==> options[0] == HeadlessFlag
    ensures |options| == if headless then 9 else 8
    ensures options[|options| - 8..] == CompatibilityFlags
  {
    (if headless then [HeadlessFlag] else []) + CompatibilityFlags
  }

  /** A started browser: the options it was launched with, its page-load
      timeout (`None` while not set), and whether it is still running. */
  datatype Browser = Browser(options: seq<string>, pageLoadTimeout: Option<int>, open: bool)

  // ---------------------------------------------------------------------------
  // Login verdict (`login`)
  // ---------------------------------------------------------------------------

  /** Navigating to the portal: it failed (any exception), or the page loaded
      and its text could (`Some`) or could not (`None`) be read. */
  datatype PageLoad = NavigationFailed | Loaded(pageSource: Option<string>)

  /** Filling and submitting the form: any exception before the verdict is
      `FormAborted` (a wait timed out; a field, the domain checkbox or the
      button was missing; `clear`, `send_keys` or `click` raised; reading the
      address after the pause raised), or the form was submitted. Then `currentUrl` is the address after the pause and
      `errorElements` the number of elements with class `error`. It is `None`
      when the inner error check raised: looking for the elements failed, or
      reading the text of the first one failed. Either way the check is
      abandoned as if no error element had been found. */
  datatype FormResult = FormAborted | Submitted(currentUrl: string, errorElements: Option<nat>)

  /** The verdict after submission: moved away from the login page is success;
      still there with an error element is failure; otherwise unclear (`None`). */
  function SubmitVerdict(currentUrl: string, loginUrl: string, errorElements: Option<nat>): (verdict: Option<bool>)
  {
    if currentUrl != loginUrl then Some(true)
    else if errorElements.Some? && errorElements.value > 0 then Some(false)
    else None
  }

  /** `SubmitVerdict` reports success exactly on a redirect, failure exactly
      on a visible error without a redirect, and nothing otherwise. */
  lemma SubmitVerdictCases(currentUrl: string, loginUrl: string, errorElements: Option<nat>)
    ensures SubmitVerdict(currentUrl, loginUrl, errorElements) == Some(true) <==> currentUrl != loginUrl
    ensures SubmitVerdict(currentUrl, loginUrl, errorElements) == Some(false) <==>
      currentUrl == loginUrl && errorElements.Some? && errorElements.value >= 1
    ensures SubmitVerdict(currentUrl, loginUrl, errorElements) == None <==>
      currentUrl == loginUrl && (errorElements == None || errorElements == Some(0))
  {
  }

  /** `login`: an already-authenticated page is success without touching the
      form; need-login and unknown both go on to the form. A failed navigation
      or a failed form step is failure. A failed read of the page text is
      absorbed by the status check (unknown), and the form is tried. */
  function LoginOutcome(loginUrl: string, load: PageLoad, form: FormResult): (result: Option<bool>)
  {
    match load
    case NavigationFailed => Some(false)
    case Loaded(source) =>
      if CheckLoginStatus(source) == AlreadyLoggedIn then Some(true)
      else match form
        case FormAborted => Some(false)
        case Submitted(url, errors) => SubmitVerdict(url, loginUrl, errors)
  }

  /** Login succeeds exactly when the page already showed a session, or the
      submitted form led away from the login page. */
  lemma LoginSucceedsIff(loginUrl: string, load: PageLoad, form: FormResult)
    ensures LoginOutcome(loginUrl, load, form) == Some(true) <==>
      && load.Loaded?
      && (|| CheckLoginStatus(load.pageSource) == AlreadyLoggedIn
          || (form.Submitted? && form.currentUrl != loginUrl))
  {
  }

  /** Login is unclear exactly when the form was submitted, the address did not
      change and no error element was found. */
  lemma LoginUnclearIff(loginUrl: string, load: PageLoad, form: FormResult)
    ensures LoginOutcome(loginUrl, load, form) == None <==>
      && load.Loaded?
      && CheckLoginStatus(load.pageSource) != AlreadyLoggedIn
      && form.Submitted?
      && form.currentUrl == loginUrl
      && (form.errorElements == None || form.errorElements == Some(0))
  {
  }

  /** An unknown status is handled like need-login: the form decides. */
  lemma UnknownProceedsLikeNeedLogin(loginUrl: string, unknownPage: Option<string>, loginPage: string, form: FormResult)
    requires CheckLoginStatus(unknownPage) == Unknown
    requires ClassifyPage(loginPage) == NeedLogin
    ensures LoginOutcome(loginUrl, Loaded(unknownPage), form) == LoginOutcome(loginUrl, Loaded(Some(loginPage)), form)
  {
  }

  /** `run`'s mapping of the login result: true, false and `None` are passed
      on unchanged. */
  function ReportResult(result: Option<bool>): (reported: Option<bool>)
    ensures reported == result
  {
    match result
    case Some(true) => Some(true)
    case Some(false) => Some(false)
    case None => None
  }

  // ---------------------------------------------------------------------------
  // The client object
  // ---------------------------------------------------------------------------

  class TunetAutoLogin {
    var username: string
    var password: string
    var headless: bool
    var timeout: int
    var driver: Option<Browser>
    var loginUrl: string

    /** A constructed client holds non-empty credentials and the portal address. */
    ghost predicate Valid()
      reads this
    {
      username != "" && password != "" && loginUrl == LoginUrl
    }

    /** The field assignments of `__init__`, once the credentials are known good. */
    constructor (credentials: Credentials, headless: bool, timeout: int)
      requires credentials.username != "" && credentials.password != ""
      ensures Valid()
      ensures username == credentials.username && password == credentials.password
      ensures this.headless == headless && this.timeout == timeout && driver == None
    {
      username := credentials.username;
      password := credentials.password;
      this.headless := headless;
      this.timeout := timeout;
      driver := None;
      loginUrl := LoginUrl;
    }

    /** `TunetAutoLogin(username, password, headless, timeout)`: a fresh client,
        or the `ValueError` for missing credentials. */
    static method Create(username: Option<string>, password: Option<string>, env: Environment,
                         headless: bool, timeout: int)
      returns (r: Result<TunetAutoLogin, ConfigError>)
      ensures r.Failure? <==> ResolveCredentials(username, password, env).Failure?
      ensures r.Failure? ==> r.error == MissingCredentials
      ensures r.Success? ==>
        && fresh(r.value)
        && r.value.Valid()
        && Credentials(r.value.username, r.value.password) == ResolveCredentials(username, password, env).value
        && r.value.headless == headless && r.value.timeout == timeout
        && r.value.driver == None
    {
      var credentials := ResolveCredentials(username, password, env);
      if credentials.Failure? {
        return Failure(credentials.error);
      }
      var client := new TunetAutoLogin(credentials.value, headless, timeout);
      return Success(client);
    }

    /** `setup_driver`: builds the option list flag by flag and starts the
        browser. `launch` says how starting it went. When `webdriver.Chrome`
        raises, `driver` is left as it was; when only setting the page-load
        timeout raises, the started browser is already stored. In both cases
        the exception propagates (`started` is false). */
    method SetupDriver(launch: Launch) returns (started: bool)
      modifies this`driver
      ensures started <==> launch == Launched
      ensures launch == Launched ==> driver == Some(Browser(ChromeOptions(headless), Some(PageLoadTimeout), true))
      ensures launch == TimeoutNotSet ==> driver == Some(Browser(ChromeOptions(headless), None, true))
      ensures launch == LaunchFailed ==> driver == old(driver)
    {
      var options: seq<string> := [];
      if headless {
        options := options + [HeadlessFlag];
      }
      ghost var leading := options;
      options := options + ["--no-sandbox"];
      options := options + ["--disable-dev-shm-usage"];
      options := options + ["--disable-gpu"];
      options := options + ["--window-size=1920,1080"];
      options := options + ["--disable-web-security"];
      options := options + ["--allow-running-insecure-content"];
      options := options + ["--disable-extensions"];
      options := options + [UserAgentFlag];
      assert options[|leading|..] == CompatibilityFlags;
      assert leading == if headless then [HeadlessFlag] else [];
      assert options == ChromeOptions(headless);
      if launch == LaunchFailed {
        return false;
      }
      driver := Some(Browser(options, None, true));
      if launch == TimeoutNotSet {
        return false;
      }
      driver := Some(driver.value.(pageLoadTimeout := Some(PageLoadTimeout)));
      started := true;
    }

    /** `run`: start the browser, log in, report the result, and close the
        browser held in `driver` on every path. A failed start is reported as
        failure. */
    method Run(launch: Launch, load: PageLoad, form: FormResult) returns (result: Option<bool>)
      requires Valid()
      modifies this`driver
      ensures Valid()
      ensures launch == Launched ==> result == LoginOutcome(LoginUrl, load, form)
      ensures launch != Launched ==> result == Some(false)
      ensures launch == Launched ==> driver == Some(Browser(ChromeOptions(headless), Some(PageLoadTimeout), false))
      ensures launch == TimeoutNotSet ==> driver == Some(Browser(ChromeOptions(headless), None, false))
      ensures launch == LaunchFailed ==>
        driver == if old(driver).Some? then Some(old(driver).value.(open := false)) else None
    {
      var started := SetupDriver(launch);
      if started {
        var outcome := LoginOutcome(loginUrl, load, form);
        result := ReportResult(outcome);
      } else {
        result := Some(false);
      }
      if driver.Some? {
        driver := Some(driver.value.(open := false));
      }
    }
  }
}
