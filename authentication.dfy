/**
 * The login to My Fortum: checking the configured credentials, driving the
 * browser through the login form in three phases, and polling the page's
 * session storage for the access token.
 *
 * The browser is not modelled. A `Browser` value says how each phase ends and
 * what each evaluation of `sessionStorage.getItem('accessToken')` gives.
 */
module Authentication {
  import opened Wrappers
  import opened Errors

  /** Path of the login page under the base URL. */
  const LoginPath := "/login?lang=en"

  /** The poll loop runs while `attempt < MaxAttempt`, starting from attempt 1. */
  const MaxAttempt := 100
  /** So at most this many evaluations happen. */
  const MaxEvaluations := MaxAttempt - 1

  datatype Auth = Auth(user: string, password: string, loginUrl: string, token: string)

  /** A `*string` that is neither nil nor empty. */
  predicate Given(s: Option<string>) { s.Some? && s.value != "" }

  /**
   * `NewAuth`: user, then password, then URL must be given; the first that is
   * not decides the error. On success the login URL is the base URL followed by
   * the login path and the token is still empty.
   */
  function NewAuth(user: Option<string>, password: Option<string>, baseUrl: Option<string>): (r: Result<Auth>)
    ensures r.Ok? <==> Given(user) && Given(password) && Given(baseUrl)
    ensures !Given(user) ==> r == Err(New("user cannot be empty"))
    ensures Given(user) && !Given(password) ==> r == Err(New("password cannot be empty"))
    ensures Given(user) && Given(password) && !Given(baseUrl) ==> r == Err(New("url cannot be empty"))
    ensures r.Ok? ==> r.value.user == user.value && r.value.password == password.value
    ensures r.Ok? ==> |r.value.loginUrl| == |baseUrl.value| + |LoginPath|
    ensures r.Ok? ==> r.value.loginUrl[..|baseUrl.value|] == baseUrl.value
    ensures r.Ok? ==> r.value.loginUrl[|baseUrl.value|..] == LoginPath
    ensures r.Ok? ==> r.value.token == ""
  {
    if !Given(user) then Err(New("user cannot be empty"))
    else if !Given(password) then Err(New("password cannot be empty"))
    else if !Given(baseUrl) then Err(New("url cannot be empty"))
    else Ok(Auth(user.value, password.value, baseUrl.value + LoginPath, ""))
  }

  // ---------------------------------------------------------------------
  // The browser as seen by the login script

  /**
   * One run of `WaitReady("body")` then `Evaluate(getItem('accessToken'))`:
   * the error that run returned, and the value of `accessToken` after it.
   */
  datatype Evaluation = Evaluation(err: Option<Error>, token: Option<string>)

  /**
   * How the three timed phases of the login end (None: the phase finished), and
   * what the n-th evaluation of the token read gives, counting from 0.
   */
  datatype Browser = Browser(
    navigate: Option<Error>,
    fill: Option<Error>,
    submit: Option<Error>,
    storage: nat -> Evaluation)

  /** A phase the login script started. */
  datatype Phase =
    | Navigate(url: string)
    | Fill(user: string, password: string)
    | Submit
    | ReadToken(evaluations: nat)

  // ---------------------------------------------------------------------
  // readAccessToken

  /** The outcome of the token poll and how many evaluations it made. */
  datatype Poll = Poll(result: Result<string>, evaluations: nat)

  /** No evaluation numbered from `lo` up to (not including) `hi` gave a token. */
  ghost predicate NoTokenIn(storage: nat -> Evaluation, lo: nat, hi: nat)
  {
    forall i :: lo <= i < hi ==> storage(i).token.None?
  }

  /** The error after every attempt came back without a token, decided by the last evaluation's error. */
  function PollError(last: Option<Error>): Error
  {
    if last.Some? then Joined(New("failed to get accessToken"), last.value)
    else New("accessToken not found")
  }

  /**
   * The poll from attempt `attempt` on, where `lastErr` is the error of the
   * evaluation before it. Attempt k makes evaluation k - 1.
   */
  function PollFrom(storage: nat -> Evaluation, attempt: nat, lastErr: Option<Error>): (p: Poll)
    requires 1 <= attempt <= MaxAttempt
    ensures attempt - 1 <= p.evaluations <= MaxEvaluations
    ensures p.result.Ok? ==>
              && attempt <= p.evaluations
              && storage(p.evaluations - 1).token == Some(p.result.value)
              && NoTokenIn(storage, attempt - 1, p.evaluations - 1)
    ensures p.result.Err? ==>
              && p.evaluations == MaxEvaluations
              && NoTokenIn(storage, attempt - 1, MaxEvaluations)
              && p.result.error == PollError(if attempt < MaxAttempt then storage(MaxEvaluations - 1).err else lastErr)
    decreases MaxAttempt - attempt
  {
    if attempt < MaxAttempt then
      var e := storage(attempt - 1);
      if e.token.Some? then Poll(Ok(e.token.value), attempt)
      else PollFrom(storage, attempt + 1, e.err)
    else
      Poll(Err(PollError(lastErr)), attempt - 1)
  }

  /**
   * The whole poll: between 1 and 99 evaluations; a token is the one the last
   * evaluation gave, after none before it; a failure means 99 evaluations
   * without a token and depends only on the 99th evaluation's error.
   */
  function ReadResult(storage: nat -> Evaluation): (p: Poll)
    ensures 1 <= p.evaluations <= MaxEvaluations
    ensures p.result.Ok? ==>
              storage(p.evaluations - 1).token == Some(p.result.value) && NoTokenIn(storage, 0, p.evaluations - 1)
    ensures p.result.Err? ==>
              && p.evaluations == MaxEvaluations
              && NoTokenIn(storage, 0, MaxEvaluations)
              && p.result.error == PollError(storage(MaxEvaluations - 1).err)
  {
    PollFrom(storage, 1, None)
  }

  /** When evaluation k is the first to give a token, exactly k + 1 evaluations happen and that token is returned. */
  lemma FirstTokenEndsPoll(storage: nat -> Evaluation, k: nat)
    requires k < MaxEvaluations
    requires NoTokenIn(storage, 0, k) && storage(k).token.Some?
    ensures ReadResult(storage) == Poll(Ok(storage(k).token.value), k + 1)
  {
  }

  /** A poll that never sees a token makes all 99 evaluations and fails. */
  lemma NoTokenExhaustsPoll(storage: nat -> Evaluation)
    requires NoTokenIn(storage, 0, MaxEvaluations)
    ensures ReadResult(storage) == Poll(Err(PollError(storage(MaxEvaluations - 1).err)), MaxEvaluations)
  {
  }

  /**
   * `readAccessToken`: evaluate until a token shows up, at most 99 times.
   * `attempt`, `err` and `accessToken` are the loop's variables in the source;
   * `evaluations` reports how many evaluations were made.
   */
  method ReadAccessToken(storage: nat -> Evaluation) returns (r: Result<string>, evaluations: nat)
    ensures Poll(r, evaluations) == ReadResult(storage)
  {
    var attempt := 1;
    var err: Option<Error> := None;
    var accessToken: Option<string> := None;
    while attempt < MaxAttempt
      invariant 1 <= attempt <= MaxAttempt
      invariant PollFrom(storage, attempt, err) == ReadResult(storage)
      invariant accessToken.None?
    {
      var e := storage(attempt - 1);
      err, accessToken := e.err, e.token;
      if accessToken.Some? {
        return Ok(accessToken.value), attempt;
      }
      attempt := attempt + 1;
    }
    if err.Some? {
      return Err(Joined(New("failed to get accessToken"), err.value)), attempt - 1;
    }
    return Err(New("accessToken not found")), attempt - 1;
  }

  // ---------------------------------------------------------------------
  // getAccessToken

  /** The phases run and the result of the login script, phase after phase. */
  datatype Login = Login(result: Result<string>, phases: seq<Phase>)

  predicate FormSubmitted(browser: Browser)
  {
    browser.navigate.None? && browser.fill.None? && browser.submit.None?
  }

  function LoginRun(auth: Auth, browser: Browser): Login
  {
    var nav := [Navigate(auth.loginUrl)];
    var fill := nav + [Fill(auth.user, auth.password)];
    var submit := fill + [Submit];
    if browser.navigate.Some? then Login(Err(browser.navigate.value), nav)
    else if browser.fill.Some? then Login(Err(browser.fill.value), fill)
    else if browser.submit.Some? then Login(Err(Joined(New("login failed"), browser.submit.value)), submit)
    else
      var poll := ReadResult(browser.storage);
      Login(poll.result, submit + [ReadToken(poll.evaluations)])
  }

  /**
   * `getAccessToken`: navigate to the login URL, fill in user and password,
   * submit, then read the token. The first phase that fails ends the script,
   * so no later phase starts; only a failed submit is reported as "login failed".
   */
  method GetAccessToken(auth: Auth, browser: Browser) returns (r: Result<string>, ran: seq<Phase>)
    ensures Login(r, ran) == LoginRun(auth, browser)
    ensures browser.navigate.Some? ==>
              r == Err(browser.navigate.value) && ran == [Navigate(auth.loginUrl)]
    ensures browser.navigate.None? && browser.fill.Some? ==>
              r == Err(browser.fill.value) && ran == [Navigate(auth.loginUrl), Fill(auth.user, auth.password)]
    ensures browser.navigate.None? && browser.fill.None? && browser.submit.Some? ==>
              && r == Err(Joined(New("login failed"), browser.submit.value))
              && ran == [Navigate(auth.loginUrl), Fill(auth.user, auth.password), Submit]
    ensures FormSubmitted(browser) ==>
              && r == ReadResult(browser.storage).result
              && ran == [Navigate(auth.loginUrl), Fill(auth.user, auth.password), Submit,
                         ReadToken(ReadResult(browser.storage).evaluations)]
    ensures r.Ok? <==> FormSubmitted(browser) && ReadResult(browser.storage).result.Ok?
  {
    ran := [Navigate(auth.loginUrl)];
    if browser.navigate.Some? {
      return Err(browser.navigate.value), ran;
    }
    ran := ran + [Fill(auth.user, auth.password)];
    if browser.fill.Some? {
      return Err(browser.fill.value), ran;
    }
    ran := ran + [Submit];
    if browser.submit.Some? {
      return Err(Joined(New("login failed"), browser.submit.value)), ran;
    }
    var token, evaluations := ReadAccessToken(browser.storage);
    ran := ran + [ReadToken(evaluations)];
    if token.Err? {
      return Err(token.error), ran;
    }
    return Ok(token.value), ran;
  }

  /** A page that accepts the credentials and shows a token at once: the login returns that token after one evaluation. */
  lemma AcceptingPageYieldsToken(user: string, password: string, baseUrl: string, token: string)
    requires user != "" && password != "" && baseUrl != ""
    ensures var browser := Browser(None, None, None, _ => Evaluation(None, Some(token)));
            && NewAuth(Some(user), Some(password), Some(baseUrl)).Ok?
            && LoginRun(NewAuth(Some(user), Some(password), Some(baseUrl)).value, browser).result == Ok(token)
            && LoginRun(NewAuth(Some(user), Some(password), Some(baseUrl)).value, browser).phases ==
                 [Navigate(baseUrl + LoginPath), Fill(user, password), Submit, ReadToken(1)]
  {
    var browser := Browser(None, None, None, _ => Evaluation(None, Some(token)));
    FirstTokenEndsPoll(browser.storage, 0);
  }
}
