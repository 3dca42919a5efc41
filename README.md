# Tsinghua network auto-login: a Dafny model of its decision logic

`tunet_login.py` logs into the Tsinghua University campus network portal by
driving a headless Chrome browser. Almost all of it is browser automation.
This project models the decisions the script makes around those browser
calls, and proves what they guarantee:

- **the login-status classifier** (`check_login_status`). It reads the raw
  page text and answers `already_logged_in`, `need_login` or `unknown`.
  The checks run in a fixed order: a literal success-page marker, then at
  least three of five success texts, then at least three of five login-form
  texts. Python's `sub in s` is modelled by `Text.Contains`, and it is proved
  equal to the reference meaning "some position holds `sub`". Module
  `StatusCheck`.
- **credential resolution** (`__init__`). Each credential is the argument
  when that is non-empty, otherwise the `TUNET_USERNAME` / `TUNET_PASSWORD`
  environment variable. Construction raises `ValueError` when either value
  is missing or empty. Module `TunetClient`.
- **the browser option list** (`setup_driver`). It is built by appending
  flags one by one, with `--headless` first and only when asked for. The
  class `TunetClient.TunetAutoLogin` holds the fields the script assigns.
- **the login verdict** (`login`). A page that already shows a session is
  a success. Otherwise the form is filled. After submission, a changed
  address means success. On the same address, finding an element with class
  `error` and reading its text means failure. Anything else is unclear
  (`None`), including an error check that raised while looking for the
  elements or reading the first one's text. A failed navigation or a failed
  form step is a failure. A failed read of the page text is not: the status
  check absorbs it as `unknown` and the form is tried.
- **the run result and the exit status** (`run`, `main`). `run` passes the
  tri-state through, treats a browser that fails to start as failure, and
  always closes the browser. `main` exits 0 only for a `True` result and 1
  for everything else. Module `Cli`.

Browser calls are not modelled. What they return is given to the model as
plain values: the page text, or `None` when reading it raised
(`Option<string>`); whether navigation failed (`PageLoad`); whether a form
step failed or the form was submitted, and then the address and the number
of error elements (`FormResult`); whether Chrome started and whether its
page-load timeout could be set (`Launch`).
The environment is a `map<string, string>`.

Success is checked before the login form, so a page that meets both
thresholds is `already_logged_in` (`SuccessTakesPrecedence`).

Files: `wrappers.dfy` (Option, Result), `text.dfy` (substring search),
`status_check.dfy` (classifier), `tunet_client.dfy` (client object and
decisions), `cli.dfy` (entry point).

## Model

| member | source | states |
|---|---|---|
| Text.Contains | tunet_login.py:96-128 | no contract of its own: Python's `sub in s`, as used at lines 96, 110 and 128; characterised by ContainsIffOccurs |
| Text.OccursImpliesContains | tunet_login.py:110 | every position at which a string occurs is found by the substring test |
| Text.ContainsImpliesOccurs | tunet_login.py:110 | whatever the substring test finds occurs at some position |
| Text.ContainsIffOccurs | tunet_login.py:110 | the substring test `x in page` holds exactly when some position of the page holds `x` |
| Text.ContainsEmbedded | tunet_login.py:96 | a string is found in any text that embeds it, whatever surrounds it |
| Text.ContainsGrows | tunet_login.py:128 | adding text before or after a page never hides a string found in it |
| Text.MissingCharNotContained | tunet_login.py:110 | a string with a character that the page lacks is not found in the page |
| StatusCheck.ClassifyPage | tunet_login.py:95-137 | no contract of its own: the success-page marker check, then the success threshold, then the login threshold; characterised by AlreadyLoggedInIff, NeedLoginIff and UnknownIff |
| StatusCheck.CheckLoginStatus | tunet_login.py:90-141 | no contract of its own: a page that could not be read is `unknown`, any other page is classified by ClassifyPage; characterised by UnreadablePageIsUnknown and the three Iff lemmas |
| StatusCheck.StatusNamesDistinct | tunet_login.py:90-141 | the classifier returns one of the three status strings, and different verdicts have different strings |
| StatusCheck.CountPresent | tunet_login.py:109-111 | the generator sum behind SuccessCount and LoginCount lies between 0 and the list length; it is 0 exactly when no indicator occurs, and the full length exactly when all occur |
| StatusCheck.CountPresentIsSetSize | tunet_login.py:109-111 | for a list without repeats, the sum equals the number of different indicators present, so each is counted at most once |
| StatusCheck.CountPresentGrows | tunet_login.py:127-129 | surrounding the page with more text never lowers an indicator count |
| StatusCheck.IndicatorListsDistinct | tunet_login.py:101-125 | neither indicator list repeats an entry |
| StatusCheck.CountsBounded | tunet_login.py:101-129 | the success and login counts each lie in 0..5 |
| StatusCheck.HasSuccessPageMarker | tunet_login.py:96 | no contract of its own: either marker literal occurs in the page; characterised by MarkerAnywhereMeansLoggedIn and AlreadyLoggedInIff |
| StatusCheck.MarkerAnywhereMeansLoggedIn | tunet_login.py:96-98 | a page with either success-page marker anywhere in it is `already_logged_in`, whatever else it contains |
| StatusCheck.AlreadyLoggedInIff | tunet_login.py:96-116 | `already_logged_in` exactly when a marker is present or at least three different success indicators occur |
| StatusCheck.NeedLoginIff | tunet_login.py:96-134 | `need_login` exactly when there is no marker, fewer than three different success indicators occur, and at least three different login indicators occur |
| StatusCheck.UnknownIff | tunet_login.py:96-137 | `unknown` exactly when there is no marker and neither threshold is met |
| StatusCheck.SuccessTakesPrecedence | tunet_login.py:112-134 | a page meeting both thresholds is `already_logged_in`, because success is checked first |
| StatusCheck.LoggedInSurvivesMoreText | tunet_login.py:96-116 | a page classified `already_logged_in` stays so when more text is added before or after it |
| StatusCheck.ThreeLoginTextsReachThreshold | tunet_login.py:119-130 | any three different login indicators present reach the login threshold |
| StatusCheck.NoSuccessTextWithoutItsCharacters | tunet_login.py:96-111 | a page without `:`, `已`, `b`, `断` or `_` holds no success-page marker and no success indicator |
| StatusCheck.LoginFormWithoutSuccessNeedsLogin | tunet_login.py:96-134 | every page with the username box and both labels, no success-page marker and fewer than three success indicators is classified `need_login` |
| StatusCheck.SampleLoginPageNeedsLogin | tunet_login.py:119-134 | the sample page `用户名<input id="username">密码` is classified `need_login` |
| StatusCheck.UnreadablePageIsUnknown | tunet_login.py:139-141 | when reading the page raises, the status is `unknown` |
| TunetClient.Resolve | tunet_login.py:41-42 | no contract of its own: `argument or os.getenv(name)`, the argument when it is non-empty, else the environment's value; characterised by CredentialsComeFromArgumentOrEnvironment and CredentialsRejectedIff |
| TunetClient.ResolveCredentials | tunet_login.py:41-54 | a successful construction holds a non-empty username and a non-empty password |
| TunetClient.CredentialsRejectedIff | tunet_login.py:50-54 | construction fails exactly when, for the username or for the password, neither a non-empty argument nor a non-empty environment variable is given |
| TunetClient.CredentialsComeFromArgumentOrEnvironment | tunet_login.py:41-42 | each resolved credential is the argument when that is non-empty, else the value of `TUNET_USERNAME` / `TUNET_PASSWORD` |
| TunetClient.NoCredentialsAnywhereFails | tunet_login.py:41-54 | with no arguments and neither variable set, construction fails with the configuration error |
| TunetClient.ChromeOptions | tunet_login.py:58-74 | `--headless` is in the option list exactly when headless is on, and is then first; the eight compatibility flags follow in fixed order; the list has 9 or 8 entries |
| TunetClient.SubmitVerdict | tunet_login.py:236-255 | no contract of its own: the verdict after submission from the address and the error elements; characterised by SubmitVerdictCases |
| TunetClient.SubmitVerdictCases | tunet_login.py:236-255 | after submitting: success exactly when the address changed; failure exactly when it did not and an error element exists; unclear otherwise |
| TunetClient.LoginOutcome | tunet_login.py:143-262 | no contract of its own: navigation, the status check, the form and the post-submit verdict in the order of `login`; characterised by LoginSucceedsIff, LoginUnclearIff and UnknownProceedsLikeNeedLogin |
| TunetClient.LoginSucceedsIff | tunet_login.py:143-262 | `login` returns true exactly when the page loaded and either already showed a session or the submitted form led away from the login address |
| TunetClient.LoginUnclearIff | tunet_login.py:236-255 | `login` returns `None` exactly when the form was submitted, the address is unchanged and the error check found no error element or raised |
| TunetClient.UnknownProceedsLikeNeedLogin | tunet_login.py:172-180 | an `unknown` status leads to the same login attempt as `need_login` |
| TunetClient.ReportResult | tunet_login.py:270-280 | `run` passes true, false and `None` through unchanged |
| TunetClient.TunetAutoLogin.constructor | tunet_login.py:43-48 | receives credentials already resolved (by `Create` and `Resolve`) and non-empty; the new client holds them, the headless flag and the timeout, no driver, and the portal address |
| TunetClient.TunetAutoLogin.Create | tunet_login.py:31-54 | construction fails with the configuration error exactly when credential resolution fails; otherwise a fresh client holds the resolved credentials and no driver |
| TunetClient.TunetAutoLogin.SetupDriver | tunet_login.py:56-88 | when the browser starts, the driver holds the option list for the client's headless setting and a 60-second page-load timeout; when only setting the timeout raises, the driver holds the started browser without a timeout and the call fails; when the browser does not start, the driver is unchanged and the call fails |
| TunetClient.TunetAutoLogin.Run | tunet_login.py:264-288 | a fully started run returns the login verdict and any failed start returns false; afterwards the driver is the started browser, closed, or, when Chrome did not start, the previous driver closed (or still none) |
| Cli.HeadlessSetting | tunet_login.py:323 | no contract of its own: `headless = not no_headless`; characterised by HeadlessFlagFollowsCommandLine |
| Cli.HeadlessFlagFollowsCommandLine | tunet_login.py:323 | the browser gets `--headless` (first) by default and does not get it under `--no-headless` |
| Cli.ExitCode | tunet_login.py:327-340 | the exit status is 0 exactly when the run returned true, and 1 for false, `None`, a configuration error or an interrupt |
| Cli.RunMain | tunet_login.py:319-340 | `main` exits 0 exactly when the credentials resolve, the run is not interrupted, the browser starts and login succeeds; otherwise it exits 1 |

## Left out

- Browser automation (`webdriver.Chrome`, `get`, `page_source`, `find_element(s)`, `WebDriverWait`, `clear`, `send_keys`, `click`, `is_selected`, `quit`): a foreign library. Its results are inputs to the model, and `quit` is modelled only as marking the browser closed.
- Filling the form (typing the credentials, ticking the domain checkbox when it is not ticked, clicking the button): browser side effects. The model keeps only the two outcomes of these steps: some step failed, or the form was submitted.
- The timeout values: `timeout` is stored and the 60-second page-load timeout is recorded, but waiting is not modelled. The `time.sleep` pauses are left out too.
- Logging, the `--verbose` log level, the page-length warning (tunet_login.py:155-166) and the debug listing of input elements (tunet_login.py:195-205): diagnostics only.
- `load_dotenv` and `argparse` parsing: library calls. The model starts from parsed arguments and an environment map.
- An exception from `quit` in `run`'s cleanup (tunet_login.py:286-287) is not modelled: `quit` always succeeds here. In the script such an exception escapes `main`, whose handlers catch only `ValueError` and `KeyboardInterrupt` (tunet_login.py:330-340), so the process exits with status 1 even after a successful login.
- Where an interrupt arrives: `RunMain` models an interrupt only as arriving after construction. It then exits 1 and does not model the browser being closed by `run`'s cleanup.
- `login` called on a client without a driver: `run` always sets the driver first, and the model covers only that order.
