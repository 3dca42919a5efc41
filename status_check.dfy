/** The login-status classifier of `TunetAutoLogin.check_login_status`:
    a heuristic that guesses from the raw portal page whether the session is
    already authenticated, by looking for fixed substrings. */
module StatusCheck {
  import opened Wrappers
  import opened Text

  /** The three verdicts of the classifier. */
  datatype LoginStatus = AlreadyLoggedIn | NeedLogin | Unknown

  /** The status string `tunet_login.py` returns for each verdict. */
  function StatusName(status: LoginStatus): (name: string)
  {
    match status
    case AlreadyLoggedIn => "already_logged_in"
    case NeedLogin => "need_login"
    case Unknown => "unknown"
  }

  /** The classifier's answers are exactly the three status strings, and no
      two verdicts share one. */
  lemma StatusNamesDistinct(a: LoginStatus, b: LoginStatus)
    ensures StatusName(a) in {"already_logged_in", "need_login", "unknown"}
    ensures StatusName(a) == StatusName(b) ==> a == b
  {
  }

  /** The success-page markers: either one alone settles the verdict. */
  const SuccessPageMarkers: seq<string> := ["page   : 'success'", "page:\"success\""]

  /** Texts shown only after login: duration, usage, logout button,
      disconnect text, user-name display. */
  const SuccessIndicators: seq<string> := ["已连接", "已用流量", "btn-logout", "断开连接", "user_name"]

  /** Texts of the login form: the three control ids, then the username and
      password labels. */
  const LoginIndicators: seq<string> := ["id=\"username\"", "id=\"password\"", "id=\"login-account\"", "用户名", "密码"]

  /** How many indicators must be present for a verdict. */
  const IndicatorThreshold: nat := 3

  /** No indicator list names the same text twice. */
  predicate Distinct(xs: seq<string>)
  {
    forall i, j :: 0 <= i < j < |xs| ==> xs[i] != xs[j]
  }

  /** The indicators of `indicators` that occur in `page`, each once. */
  ghost function PresentIndicators(page: string, indicators: seq<string>): set<string>
  {
    set x | x in indicators && Contains(page, x)
  }

  /** The generator sum `sum(1 for indicator in indicators if indicator in page)`. */
  function CountPresent(page: string, indicators: seq<string>): (n: nat)
    ensures n <= |indicators|
    ensures n == 0 <==> forall i :: 0 <= i < |indicators| ==> !Contains(page, indicators[i])
    ensures n == |indicators| <==> forall i :: 0 <= i < |indicators| ==> Contains(page, indicators[i])
  {
    if indicators == [] then 0
    else (if Contains(page, indicators[0]) then 1 else 0) + CountPresent(page, indicators[1..])
  }

  /** With distinct indicators the sum counts each present indicator exactly once. */
  lemma {:induction false} CountPresentIsSetSize(page: string, indicators: seq<string>)
    requires Distinct(indicators)
    ensures CountPresent(page, indicators) == |PresentIndicators(page, indicators)|
  {
    if indicators != [] {
      var head, rest := indicators[0], indicators[1..];
      assert Distinct(rest) by {
        forall i, j | 0 <= i < j < |rest| ensures rest[i] != rest[j] {
          assert rest[i] == indicators[i + 1] && rest[j] == indicators[j + 1];
        }
      }
      CountPresentIsSetSize(page, rest);
      assert head !in rest by {
        forall k | 0 <= k < |rest| ensures rest[k] != head {
          assert rest[k] == indicators[k + 1];
        }
      }
      var found := if Contains(page, head) then {head} else {};
      forall x ensures x in PresentIndicators(page, indicators) <==> x in found + PresentIndicators(page, rest) {
        assert x in indicators <==> x == head || x in rest;
      }
      assert PresentIndicators(page, indicators) == found + PresentIndicators(page, rest);
      assert found !! PresentIndicators(page, rest);
    }
  }

  /** Surrounding a page with more text never lowers an indicator count. */
  lemma {:induction false} CountPresentGrows(pre: string, page: string, post: string, indicators: seq<string>)
    ensures CountPresent(page, indicators) <= CountPresent(pre + page + post, indicators)
  {
    if indicators != [] {
      if Contains(page, indicators[0]) {
        ContainsGrows(pre, page, post, indicators[0]);
      }
      CountPresentGrows(pre, page, post, indicators[1..]);
    }
  }

  /** The literal success-page marker test. */
  predicate HasSuccessPageMarker(page: string)
  {
    Contains(page, SuccessPageMarkers[0]) || Contains(page, SuccessPageMarkers[1])
  }

  /** The generator sum over the success indicators (tunet_login.py:109-111). */
  function SuccessCount(page: string): nat
  {
    CountPresent(page, SuccessIndicators)
  }

  /** The generator sum over the login indicators (tunet_login.py:127-129). */
  function LoginCount(page: string): nat
  {
    CountPresent(page, LoginIndicators)
  }

  /** The ordered checks of the classifier on a page that could be read:
      success-page marker, then the success threshold, then the login threshold. */
  function ClassifyPage(page: string): (status: LoginStatus)
  {
    if HasSuccessPageMarker(page) then AlreadyLoggedIn
    else if SuccessCount(page) >= IndicatorThreshold then AlreadyLoggedIn
    else if LoginCount(page) >= IndicatorThreshold then NeedLogin
    else Unknown
  }

  /** `check_login_status`: `pageSource` is `None` when reading the page raised,
      which the script reports as unknown. */
  function CheckLoginStatus(pageSource: Option<string>): (status: LoginStatus)
  {
    match pageSource
    case None => Unknown
    case Some(page) => ClassifyPage(page)
  }

  /** Both indicator lists are free of repeats, so counts are counts of
      different texts. */
  lemma IndicatorListsDistinct()
    ensures Distinct(SuccessIndicators) && Distinct(LoginIndicators)
  {
  }

  /** Each count lies in 0..5. */
  lemma CountsBounded(page: string)
    ensures 0 <= SuccessCount(page) <= 5 && 0 <= LoginCount(page) <= 5
  {
  }

  /** A success-page marker anywhere in the page settles the verdict,
      whatever else the page contains. */
  lemma MarkerAnywhereMeansLoggedIn(pre: string, marker: string, post: string)
    requires marker in SuccessPageMarkers
    ensures ClassifyPage(pre + marker + post) == AlreadyLoggedIn
  {
    ContainsEmbedded(pre, marker, post);
  }

  /** Already logged in exactly when a marker is present or at least three
      different success indicators are present. */
  lemma AlreadyLoggedInIff(page: string)
    ensures ClassifyPage(page) == AlreadyLoggedIn <==>
      HasSuccessPageMarker(page) || |PresentIndicators(page, SuccessIndicators)| >= 3
  {
    IndicatorListsDistinct();
    CountPresentIsSetSize(page, SuccessIndicators);
  }

  /** Need login exactly when there is no marker, fewer than three different
      success indicators, and at least three different login indicators. */
  lemma NeedLoginIff(page: string)
    ensures ClassifyPage(page) == NeedLogin <==>
      && !HasSuccessPageMarker(page)
      && |PresentIndicators(page, SuccessIndicators)| < 3
      && |PresentIndicators(page, LoginIndicators)| >= 3
  {
    IndicatorListsDistinct();
    CountPresentIsSetSize(page, SuccessIndicators);
    CountPresentIsSetSize(page, LoginIndicators);
  }

  /** Unknown exactly when no marker is present and neither threshold is met. */
  lemma UnknownIff(page: string)
    ensures ClassifyPage(page) == Unknown <==>
      && !HasSuccessPageMarker(page)
      && |PresentIndicators(page, SuccessIndicators)| < 3
      && |PresentIndicators(page, LoginIndicators)| < 3
  {
    IndicatorListsDistinct();
    CountPresentIsSetSize(page, SuccessIndicators);
    CountPresentIsSetSize(page, LoginIndicators);
  }

  /** A page meeting both thresholds counts as logged in: success is checked first. */
  lemma SuccessTakesPrecedence(page: string)
    requires SuccessCount(page) >= 3 && LoginCount(page) >= 3
    ensures ClassifyPage(page) == AlreadyLoggedIn
  {
  }

  /** Once a page reads as logged in, adding text before or after it keeps
      that verdict: markers and success counts only grow. */
  lemma LoggedInSurvivesMoreText(pre: string, page: string, post: string)
    requires ClassifyPage(page) == AlreadyLoggedIn
    ensures ClassifyPage(pre + page + post) == AlreadyLoggedIn
  {
    if HasSuccessPageMarker(page) {
      if Contains(page, SuccessPageMarkers[0]) {
        ContainsGrows(pre, page, post, SuccessPageMarkers[0]);
      } else {
        ContainsGrows(pre, page, post, SuccessPageMarkers[1]);
      }
    } else {
      CountPresentGrows(pre, page, post, SuccessIndicators);
    }
  }

  /** Three different login indicators are enough to reach the login threshold. */
  lemma ThreeLoginTextsReachThreshold(page: string, a: nat, b: nat, c: nat)
    requires a < b < c < |LoginIndicators|
    requires Contains(page, LoginIndicators[a]) && Contains(page, LoginIndicators[b]) && Contains(page, LoginIndicators[c])
    ensures LoginCount(page) >= IndicatorThreshold
  {
    var found := {LoginIndicators[a], LoginIndicators[b], LoginIndicators[c]};
    IndicatorListsDistinct();
    assert |found| == 3;
    var present := PresentIndicators(page, LoginIndicators);
    assert found <= present;
    assert present == found + (present - found);
    assert |present| == |found| + |present - found|;
    CountPresentIsSetSize(page, LoginIndicators);
  }

  /** A page without the characters ':', '已', 'b', '断' and '_' shows neither a
      success-page marker nor any success indicator. */
  lemma NoSuccessTextWithoutItsCharacters(page: string)
    requires forall i :: 0 <= i < |page| ==>
      page[i] != ':' && page[i] != '已' && page[i] != 'b' && page[i] != '断' && page[i] != '_'
    ensures !HasSuccessPageMarker(page) && SuccessCount(page) == 0
  {
    MissingCharNotContained(page, SuccessPageMarkers[0], ':');
    MissingCharNotContained(page, SuccessPageMarkers[1], ':');
    forall k | 0 <= k < |SuccessIndicators| ensures !Contains(page, SuccessIndicators[k]) {
      var c := if k <= 1 then '已' else if k == 2 then 'b' else if k == 3 then '断' else '_';
      MissingCharNotContained(page, SuccessIndicators[k], c);
    }
  }

  /** A page showing the username box and both labels, without a success-page
      marker and with fewer than three success indicators, needs login. */
  lemma LoginFormWithoutSuccessNeedsLogin(page: string)
    requires Contains(page, LoginIndicators[0]) && Contains(page, LoginIndicators[3]) && Contains(page, LoginIndicators[4])
    requires !HasSuccessPageMarker(page) && SuccessCount(page) < IndicatorThreshold
    ensures ClassifyPage(page) == NeedLogin
  {
    ThreeLoginTextsReachThreshold(page, 0, 3, 4);
  }

  /** A sample login page: both labels and the username box. The lemmas
      about it take the page as a parameter pinned by `requires page ==
      SampleLoginPage`: that keeps the verifier from unfolding `Contains` on
      two string literals, which it cannot finish. */
  const SampleLoginPage: string := "用户名<input id=\"username\">密码"

  /** The sample login page holds the username box and both labels. */
  lemma SampleShowsLoginForm(page: string)
    requires page == SampleLoginPage
    ensures Contains(page, LoginIndicators[0]) && Contains(page, LoginIndicators[3]) && Contains(page, LoginIndicators[4])
  {
    assert page[10..23] == LoginIndicators[0];
    OccursImpliesContains(page, LoginIndicators[0], 10);
    assert page[0..3] == LoginIndicators[3];
    OccursImpliesContains(page, LoginIndicators[3], 0);
    assert page[24..26] == LoginIndicators[4];
    OccursImpliesContains(page, LoginIndicators[4], 24);
  }

  /** The sample login page has none of the characters that success text needs. */
  lemma SampleLacksSuccessCharacters(page: string)
    requires page == SampleLoginPage
    ensures forall i :: 0 <= i < |page| ==>
      page[i] != ':' && page[i] != '已' && page[i] != 'b' && page[i] != '断' && page[i] != '_'
  {
  }

  /** The sample login page is classified `need_login`: an instance of
      `LoginFormWithoutSuccessNeedsLogin`. */
  lemma SampleLoginPageNeedsLogin(page: string)
    requires page == SampleLoginPage
    ensures ClassifyPage(page) == NeedLogin
  {
    SampleShowsLoginForm(page);
    SampleLacksSuccessCharacters(page);
    NoSuccessTextWithoutItsCharacters(page);
    LoginFormWithoutSuccessNeedsLogin(page);
  }

  /** A page whose text could not be read is classified unknown. */
  lemma UnreadablePageIsUnknown()
    ensures CheckLoginStatus(None) == Unknown
  {
  }
}
