/**
 * The Codeforces adapter (`Codeforces`): problem-id validation, the URLs it
 * builds, the login and submission protocol, the cookie jar, and the verdict
 * predicates.
 *
 * Each operation that talks to the remote is given twice: as a function over
 * the session state `Net` (what it answers and which requests it issues, in
 * order), and as a method of the class `Codeforces` that performs the
 * requests on its session and is proved to behave as that function says.
 */
module Codeforces {
  import opened Wrappers
  import opened Text
  import opened Html
  import opened Http
  import opened Config
  import opened CodeforcesParser

  const HomePageUrl := "http://codeforces.com/"
  /** The page `is_login` probes. */
  const ProbeUrl := "http://codeforces.com"
  /** The link only a signed-in page carries. */
  const LogoutMarker := "logout\">Logout</a>"
  const EnterPageUrl := "http://codeforces.com/enter?back=%2F"
  const EnterUrl := "http://codeforces.com/enter"
  const SubmitPageUrl := "http://codeforces.com/problemset/submit"
  const ContestPrefix := "http://codeforces.com/contest/"
  const ProblemInfix := "/problem/"
  const SubmissionInfix := "/submission/"

  // ---------------------------------------------------------------- problem ids and URLs

  /** A problem id is a contest number followed by one letter, as in "1234A". */
  predicate ValidPid(pid: string) {
    |pid| >= 2 && IsAlpha(pid[|pid| - 1]) && IsNumeric(DropLast(pid))
  }

  /** The statement page of problem `pid`. */
  function ProblemUrl(pid: string): string
    requires pid != []
  {
    ContestPrefix + DropLast(pid) + ProblemInfix + Last(pid)
  }

  /** The page of submission `rid` in the contest of problem `pid`. */
  function SubmissionUrl(rid: string, pid: string): string {
    ContestPrefix + DropLast(pid) + SubmissionInfix + rid
  }

  /**
   * Reads a problem id back from a statement URL: the contest number and the
   * letter of a URL of the form `ProblemUrl` builds.
   */
  function ParseProblemUrl(url: string): (r: Option<string>)
    ensures r.Some? ==> ValidPid(r.value)
  {
    if !StartsWith(url, ContestPrefix) then None
    else
      var rest := url[|ContestPrefix|..];
      var d := DigitRun(rest, 0);
      if d > 0 && LiteralAt(rest, d, ProblemInfix) && |rest| == d + |ProblemInfix| + 1
         && IsAlpha(rest[d + |ProblemInfix|])
      then
        var pid := rest[..d] + [rest[d + |ProblemInfix|]];
        assert DropLast(pid) == rest[..d];
        assert forall k :: 0 <= k < d ==> IsDigit(rest[k]) by { DigitRunIsDigits(rest, 0); }
        Some(pid)
      else None
  }

  /** Every valid id is read back from its statement URL. */
  lemma ProblemUrlRoundTrip(pid: string)
    requires ValidPid(pid)
    ensures ParseProblemUrl(ProblemUrl(pid)) == Some(pid)
  {
    var url := ProblemUrl(pid);
    var ds := DropLast(pid);
    var tail := ProblemInfix + Last(pid);
    assert url == ContestPrefix + (ds + tail);
    assert url[|ContestPrefix|..] == ds + tail;
    DigitRunOfDigits(ds, tail, 0);
    assert (ds + tail)[|ds| + |ProblemInfix|] == pid[|pid| - 1];
    assert (ds + tail)[..|ds|] == ds;
    assert (ds + tail)[|ds|..|ds| + |ProblemInfix|] == ProblemInfix;
    assert ds + [pid[|pid| - 1]] == pid;
  }

  /** A URL that reads as a problem id is exactly the statement URL of that id. */
  lemma ParsedUrlIsProblemUrl(url: string)
    requires ParseProblemUrl(url).Some?
    ensures ProblemUrl(ParseProblemUrl(url).value) == url
  {
    var pid := ParseProblemUrl(url).value;
    var rest := url[|ContestPrefix|..];
    var d := DigitRun(rest, 0);
    assert DropLast(pid) == rest[..d];
    assert rest == rest[..d] + ProblemInfix + Last(pid);
    assert url == ContestPrefix + rest;
  }

  /** The submission page lies in the same contest as the problem's statement. */
  lemma SubmissionInProblemContest(rid: string, pid: string)
    requires ValidPid(pid)
    ensures var contest := ContestPrefix + DropLast(pid) + "/";
      StartsWith(SubmissionUrl(rid, pid), contest) && StartsWith(ProblemUrl(pid), contest)
      && SubmissionUrl(rid, pid)[|contest|..] == "submission/" + rid
  {
    var contest := ContestPrefix + DropLast(pid) + "/";
    assert SubmissionUrl(rid, pid) == contest + ("submission/" + rid);
    assert ProblemUrl(pid) == contest + ("problem/" + Last(pid));
  }

  // ---------------------------------------------------------------- verdicts

  predicate IsAccepted(verdict: string) {
    verdict in ["Accepted", "Happy New Year!"]
  }

  predicate IsCompileError(verdict: string) {
    verdict == "Compilation error"
  }

  predicate IsRunning(verdict: string) {
    StartsWith(verdict, "Running on test") || verdict == "In queue"
  }

  /** No verdict is in two classes, and the empty verdict is in none. */
  lemma VerdictsDisjoint(verdict: string)
    ensures !(IsAccepted(verdict) && IsCompileError(verdict))
    ensures !(IsAccepted(verdict) && IsRunning(verdict))
    ensures !(IsCompileError(verdict) && IsRunning(verdict))
    ensures !IsAccepted("") && !IsCompileError("") && !IsRunning("")
  {
    if StartsWith(verdict, "Running on test") {
      assert verdict[0] == 'R';
    }
  }

  // ---------------------------------------------------------------- cookies

  /** `set_cookies`: any `dict`, including an instance of a subclass, is merged into the jar. */
  function SetCookiesOn(jar: Jar, arg: CookieArg): (r: Jar)
    ensures arg.NotADict? ==> r == jar
    ensures !arg.NotADict? ==>
      && r.Keys == jar.Keys + arg.entries.Keys
      && (forall k :: k in arg.entries ==> r[k] == arg.entries[k])
      && (forall k :: k in jar && k !in arg.entries ==> r[k] == jar[k])
  {
    match arg
    case PlainDict(c) => jar + c
    case DerivedDict(c) => jar + c
    case NotADict => jar
  }

  /** Setting the cookies the jar already holds leaves it as it is. */
  lemma SetOwnCookies(jar: Jar)
    ensures SetCookiesOn(jar, PlainDict(jar)) == jar
  {
  }

  // ---------------------------------------------------------------- the protocol

  /** `is_login`: the home page is fetched and searched for the logout link. */
  function IsLoginOn(n: Net): (r: (Outcome<bool>, Net))
    ensures r.1.trace == n.trace + [Request.Get(ProbeUrl)] && r.1.cookies == n.cookies
  {
    var (res, n1) := Exchange(n, Request.Get(ProbeUrl));
    if !Answered(res) then (Ok(false), n1)
    else if res.value.text.None? then (Raised(TypeError), n1)
    else (Ok(Search(LogoutMarker, res.value.text.value)), n1)
  }

  /** `soup.find(attrs={'name': 'X-Csrf-Token'}).get('content')`. */
  function CsrfOf(soup: seq<Node>): Outcome<Option<string>> {
    match Find(soup, WithAttr("name", "X-Csrf-Token"))
    case None => Raised(AttributeError)
    case Some(meta) => Ok(GetAttr(meta.attrs, "content"))
  }

  /** The sign-in form; a missing token and the empty `remember` list are not sent. */
  function LoginForm(token: Option<string>, account: Account): Form {
    var base := map["action" := "enter", "ftaa" := "", "bfaa" := "",
                    "handleOrEmail" := account.username, "password" := account.password];
    if token.Some? then base["csrf_token" := token.value] else base
  }

  /**
   * The body of the `try` in `login_website`: every exception it meets is
   * swallowed. It fetches the sign-in page and, when that page carries a
   * token tag, posts the credentials; the jar is as it was, since response
   * cookies are not modelled.
   */
  function TrySignIn(n: Net, account: Account): (r: Net)
    ensures r.cookies == n.cookies && |n.trace| < |r.trace| <= |n.trace| + 2 && r.trace[..|n.trace|] == n.trace
    ensures r.trace[|n.trace|] == Request.Get(EnterPageUrl)
    ensures |r.trace| == |n.trace| + 2 ==> r.trace[|n.trace| + 1].Post? && r.trace[|n.trace| + 1].url == EnterUrl
  {
    var (res, n1) := Exchange(n, Request.Get(EnterPageUrl));
    if res.None? || res.value.text.None? then n1
    else match CsrfOf(res.value.soup)
      case Raised(_) => n1
      case Ok(token) => Exchange(n1, Request.Post(EnterUrl, LoginForm(token, account))).1
  }

  /** `login_website`: a session already signed in is kept; otherwise one attempt, then a fresh probe. */
  function LoginWebsiteOn(n: Net, account: Account): (r: (Outcome<bool>, Net))
    ensures |n.trace| < |r.1.trace| && r.1.trace[..|n.trace|] == n.trace
    ensures r.1.trace[|r.1.trace| - 1] == Request.Get(ProbeUrl)
  {
    var (probe, n1) := IsLoginOn(n);
    if probe.Raised? || probe.value then (probe, n1)
    else IsLoginOn(TrySignIn(n1, account))
  }

  /** The submission form. */
  function SubmitForm(token: string, pid: string, language: string, code: string): Form {
    map["csrf_token" := token, "ftaa" := "", "bfaa" := "", "action" := "submitSolutionFormSubmitted",
        "submittedProblemCode" := pid, "programTypeId" := language, "source" := code,
        "tabSize" := "0", "sourceFile" := ""]
  }

  /** A request that submits a solution. */
  predicate IsSubmission(rq: Request) {
    rq.Post? && StartsWith(rq.url, SubmitPageUrl)
  }

  /** `submit_code`: sign in, fetch the submit page for its token, then post the solution. */
  function SubmitCodeOn(n: Net, account: Account, pid: string, language: string, code: string): (r: (Outcome<Result>, Net))
    ensures |n.trace| < |r.1.trace| && r.1.trace[..|n.trace|] == n.trace
    ensures r.0.Ok? ==> r.0.value.status in {SpiderError, SubmitSuccess, SubmitError}
    ensures r.0.Ok? && r.0.value.status != SpiderError ==> r.1.trace[|r.1.trace| - 1].Post?
  {
    var (login, n1) := LoginWebsiteOn(n, account);
    if login.Raised? then (Raised(login.exception), n1)
    else if !login.value then (Ok(BlankResult(SpiderError)), n1)
    else
      var (page, n2) := Exchange(n1, Request.Get(SubmitPageUrl));
      if page.None? then (Ok(BlankResult(SpiderError)), n2)
      else if page.value.text.None? then (Raised(TypeError), n2)
      else match CsrfOf(page.value.soup)
        case Raised(e) => (Raised(e), n2)
        case Ok(token) =>
          if token.None? then (Raised(TypeError), n2)
          else
            var (sent, n3) := Exchange(n2, Request.Post(SubmitPageUrl + "?csrf_token=" + token.value,
                                                        SubmitForm(token.value, pid, language, code)));
            (Ok(BlankResult(if Ok200(sent) then SubmitSuccess else SubmitError)), n3)
  }

  /** `get_problem`: a malformed id is refused before any request; a valid one costs exactly one GET. */
  function GetProblemOn(n: Net, pid: string): (r: (Outcome<Problem>, Net))
    ensures !ValidPid(pid) <==> r.0.Ok? && r.0.value.status == ProblemError
    ensures !ValidPid(pid) ==> r.1 == n && r.0.value.remoteOj == Some("Codeforces")
                               && r.0.value.remoteId == Some(pid)
    ensures ValidPid(pid) ==> r.1.trace == n.trace + [Request.Get(ProblemUrl(pid))]
                              && r.1.cookies == n.cookies
  {
    if !ValidPid(pid) then
      (Ok(BlankProblem(ProblemError).(remoteOj := Some("Codeforces"), remoteId := Some(pid))), n)
    else
      var url := ProblemUrl(pid);
      var (res, n1) := Exchange(n, Request.Get(url));
      (ProblemOf(res, pid, url), n1)
  }

  /** `get_result_by_url`: one GET, its answer parsed. */
  function GetResultByUrlOn(n: Net, url: string): (r: (Result, Net))
    ensures r.1.trace == n.trace + [Request.Get(url)] && r.1.cookies == n.cookies
  {
    var (res, n1) := Exchange(n, Request.Get(url));
    (ResultOf(res), n1)
  }

  /** `get_result_by_rid_and_pid`: the submission page of `rid`, parsed. */
  function GetResultByRidAndPidOn(n: Net, rid: string, pid: string): (r: (Result, Net))
    ensures r.1.trace == n.trace + [Request.Get(SubmissionUrl(rid, pid))]
  {
    GetResultByUrlOn(n, SubmissionUrl(rid, pid))
  }

  /** `is_working`: the home page answers 200; with no response at all, `.status_code` raises. */
  function IsWorkingOn(n: Net): (r: (Outcome<bool>, Net))
    ensures r.1.trace == n.trace + [Request.Get(ProbeUrl)]
    ensures r.0 == Ok(true) <==> Ok200(Exchange(n, Request.Get(ProbeUrl)).0)
  {
    var (res, n1) := Exchange(n, Request.Get(ProbeUrl));
    if res.None? then (Raised(AttributeError), n1) else (Ok(res.value.status == 200), n1)
  }

  // ---------------------------------------------------------------- protocol properties

  predicate LoginRequest(rq: Request) {
    rq == Request.Get(ProbeUrl) || rq == Request.Get(EnterPageUrl) || (rq.Post? && rq.url == EnterUrl)
  }

  lemma LoginRequestIsNoSubmission(rq: Request)
    requires LoginRequest(rq)
    ensures !IsSubmission(rq)
  {
    assert |EnterUrl| < |SubmitPageUrl|;
  }

  /**
   * Signing in issues between one and four requests, all of them to the
   * sign-in pages, and leaves the cookie jar as it was.
   */
  lemma LoginRequests(n: Net, account: Account)
    ensures var n' := LoginWebsiteOn(n, account).1;
      && |n.trace| < |n'.trace| <= |n.trace| + 4
      && n'.trace[..|n.trace|] == n.trace
      && (forall k :: |n.trace| <= k < |n'.trace| ==> LoginRequest(n'.trace[k]) && !IsSubmission(n'.trace[k]))
      && n'.cookies == n.cookies
  {
    var (probe, n1) := IsLoginOn(n);
    var n' := LoginWebsiteOn(n, account).1;
    if !(probe.Raised? || probe.value) {
      var n2 := TrySignIn(n1, account);
      var t := n'.trace[|n.trace|..];
      assert n2.trace == n1.trace || n2.trace == n1.trace + [Request.Get(EnterPageUrl)]
        || exists f :: n2.trace == n1.trace + [Request.Get(EnterPageUrl), Request.Post(EnterUrl, f)];
    }
    forall k | |n.trace| <= k < |n'.trace|
      ensures LoginRequest(n'.trace[k]) && !IsSubmission(n'.trace[k])
    {
      assert LoginRequest(n'.trace[k]);
      LoginRequestIsNoSubmission(n'.trace[k]);
    }
  }

  /** A session that is already signed in is kept: no credentials are sent. */
  lemma SignedInSessionKept(n: Net, account: Account)
    requires IsLoginOn(n).0 == Ok(true)
    ensures LoginWebsiteOn(n, account) == IsLoginOn(n)
  {
  }

  /**
   * When signing in fails, `submit_code` stops there: it reports the spider
   * error (or the exception the probe raised) and submits nothing.
   */
  lemma NoSubmissionWithoutLogin(n: Net, account: Account, pid: string, language: string, code: string)
    requires LoginWebsiteOn(n, account).0 != Ok(true)
    ensures var (login, n1) := LoginWebsiteOn(n, account);
      && SubmitCodeOn(n, account, pid, language, code).1 == n1
      && SubmitCodeOn(n, account, pid, language, code).0
         == (if login.Raised? then Raised(login.exception) else Ok(BlankResult(SpiderError)))
      && forall k :: |n.trace| <= k < |n1.trace| ==> !IsSubmission(n1.trace[k])
  {
    LoginRequests(n, account);
  }

  /** Without a submit page, `submit_code` reports the spider error after a single GET and posts nothing. */
  lemma NoSubmissionWithoutPage(n: Net, account: Account, pid: string, language: string, code: string)
    requires LoginWebsiteOn(n, account).0 == Ok(true)
    requires Exchange(LoginWebsiteOn(n, account).1, Request.Get(SubmitPageUrl)).0.None?
    ensures var n1 := LoginWebsiteOn(n, account).1;
      var n' := SubmitCodeOn(n, account, pid, language, code).1;
      && SubmitCodeOn(n, account, pid, language, code).0 == Ok(BlankResult(SpiderError))
      && n'.trace == n1.trace + [Request.Get(SubmitPageUrl)]
      && n'.cookies == n1.cookies
  {
  }

  /**
   * A submission is reported successful exactly when, after a successful
   * sign-in and a GET of the submit page, the solution was posted with the
   * page's token and the post was answered with status 200.
   */
  lemma SubmitSuccessMeansPosted(n: Net, account: Account, pid: string, language: string, code: string)
    ensures var (r, n') := SubmitCodeOn(n, account, pid, language, code);
      var (login, n1) := LoginWebsiteOn(n, account);
      var (page, n2) := Exchange(n1, Request.Get(SubmitPageUrl));
      r == Ok(BlankResult(SubmitSuccess)) <==>
        && login == Ok(true)
        && page.Some? && page.value.text.Some?
        && CsrfOf(page.value.soup).Ok? && CsrfOf(page.value.soup).value.Some?
        && var token := CsrfOf(page.value.soup).value.value;
           var post := Request.Post(SubmitPageUrl + "?csrf_token=" + token, SubmitForm(token, pid, language, code));
           n'.trace == n1.trace + [Request.Get(SubmitPageUrl), post]
           && IsSubmission(post)
           && Ok200(Exchange(n2, post).0)
  {
  }

  /** Whatever happens, `submit_code` submits at most once, and only as its last request. */
  lemma AtMostOneSubmission(n: Net, account: Account, pid: string, language: string, code: string)
    ensures var n' := SubmitCodeOn(n, account, pid, language, code).1;
      && n'.trace[..|n.trace|] == n.trace
      && forall k :: |n.trace| <= k < |n'.trace| - 1 ==> !IsSubmission(n'.trace[k])
  {
    var (login, n1) := LoginWebsiteOn(n, account);
    LoginRequests(n, account);
    var n' := SubmitCodeOn(n, account, pid, language, code).1;
    if login == Ok(true) {
      var (page, n2) := Exchange(n1, Request.Get(SubmitPageUrl));
      assert !IsSubmission(Request.Get(SubmitPageUrl));
      assert n2.trace == n1.trace + [Request.Get(SubmitPageUrl)];
      assert n'.trace == n2.trace || |n'.trace| == |n2.trace| + 1;
    }
  }

  // ---------------------------------------------------------------- the adapter

  class Codeforces {
    const req: Session

    constructor (script: seq<Reply>)
      ensures fresh(req) && req.State() == Net(map[], script, [])
    {
      req := new Session(script);
    }

    /** `get_cookies`. */
    function GetCookies(): Jar
      reads req
    {
      req.GetDict()
    }

    method SetCookies(arg: CookieArg)
      modifies req
      ensures req.State() == old(req.State()).(cookies := SetCookiesOn(old(req.cookies), arg))
    {
      match arg
      case PlainDict(c) => req.Update(c);
      case DerivedDict(c) => req.Update(c);
      case NotADict =>
    }

    method IsLogin() returns (o: Outcome<bool>)
      modifies req
      ensures (o, req.State()) == IsLoginOn(old(req.State()))
    {
      var res := req.Get(ProbeUrl);
      if !Answered(res) {
        o := Ok(false);
      } else if res.value.text.None? {
        o := Raised(TypeError);
      } else {
        o := Ok(Search(LogoutMarker, res.value.text.value));
      }
    }

    method LoginWebsite(account: Account) returns (o: Outcome<bool>)
      modifies req
      ensures (o, req.State()) == LoginWebsiteOn(old(req.State()), account)
    {
      o := IsLogin();
      if o.Raised? || o.value {
        return;
      }
      var res := req.Get(EnterPageUrl);
      if res.Some? && res.value.text.Some? {
        var token := CsrfOf(res.value.soup);
        if token.Ok? {
          var _ := req.Post(EnterUrl, LoginForm(token.value, account));
        }
      }
      o := IsLogin();
    }

    method GetProblem(pid: string) returns (o: Outcome<Problem>)
      modifies req
      ensures (o, req.State()) == GetProblemOn(old(req.State()), pid)
    {
      if !ValidPid(pid) {
        o := Ok(BlankProblem(ProblemError).(remoteOj := Some("Codeforces"), remoteId := Some(pid)));
        return;
      }
      var url := ProblemUrl(pid);
      var res := req.Get(url);
      o := ProblemParse(res, pid, url);
    }

    method SubmitCode(account: Account, pid: string, language: string, code: string) returns (o: Outcome<Result>)
      modifies req
      ensures (o, req.State()) == SubmitCodeOn(old(req.State()), account, pid, language, code)
    {
      var login := LoginWebsite(account);
      if login.Raised? {
        return Raised(login.exception);
      } else if !login.value {
        return Ok(BlankResult(SpiderError));
      }
      var page := req.Get(SubmitPageUrl);
      if page.None? {
        return Ok(BlankResult(SpiderError));
      } else if page.value.text.None? {
        return Raised(TypeError);
      }
      var token := CsrfOf(page.value.soup);
      if token.Raised? {
        return Raised(token.exception);
      } else if token.value.None? {
        return Raised(TypeError);
      }
      var sent := req.Post(SubmitPageUrl + "?csrf_token=" + token.value.value,
                           SubmitForm(token.value.value, pid, language, code));
      o := Ok(BlankResult(if Ok200(sent) then SubmitSuccess else SubmitError));
    }

    method GetResultByUrl(url: string) returns (r: Result)
      modifies req
      ensures (r, req.State()) == GetResultByUrlOn(old(req.State()), url)
    {
      var res := req.Get(url);
      r := ResultParse(res);
    }

    method GetResultByRidAndPid(rid: string, pid: string) returns (r: Result)
      modifies req
      ensures (r, req.State()) == GetResultByRidAndPidOn(old(req.State()), rid, pid)
    {
      r := GetResultByUrl(SubmissionUrl(rid, pid));
    }

    method IsWorking() returns (o: Outcome<bool>)
      modifies req
      ensures (o, req.State()) == IsWorkingOn(old(req.State()))
    {
      var res := req.Get(ProbeUrl);
      if res.None? {
        o := Raised(AttributeError);
      } else {
        o := Ok(res.value.status == 200);
      }
    }
  }
}
