/**
 * The ZOJ adapter (`ZOJ`): the URLs it builds, signing in over a cookie jar
 * the caller may seed, submission, the language list, the run lookups and
 * the verdict predicates.
 *
 * As for Codeforces, each operation that talks to the remote is a function
 * over the session state `Net` (what it answers and which requests it
 * issues, in order) and a method of the class `ZOJ` proved to behave as
 * that function says.
 */
module Zoj {
  import opened Wrappers
  import opened Text
  import opened Html
  import opened Http
  import opened Config
  import opened ZojParser

  const HomePageUrl := "http://acm.zju.edu.cn/onlinejudge/"
  const LoginUrl := "http://acm.zju.edu.cn/onlinejudge/login.do"
  const ProblemPagePrefix := "http://acm.zju.edu.cn/onlinejudge/showProblem.do?problemCode="
  const SubmitPrefix := "http://acm.zju.edu.cn/onlinejudge/submit.do?problemId="
  /** The submit page of problem 1, whose form lists the languages. */
  const LanguagePageUrl := "http://acm.zju.edu.cn/onlinejudge/submit.do?problemId=1"
  const RunsPrefix := "http://acm.zju.edu.cn/onlinejudge/showRuns.do?contestId=1&search=true&firstId=-1&lastId=-1&problemCode="
  /** The logout link of a signed-in page; each `.` matches any character but a newline. */
  const LogoutPattern := "/onlinejudge/logout.do\">Logout"
  const WelcomeMark := "<div class=\"welcome_msg\">Welcome to ZOJ</div>"
  /** What precedes and follows the internal problem id in the submit link of a problem page. */
  const SubmitLinkStart := "problemId="
  const SubmitLinkEnd := "\"><font color=\"blue\">Submit</font>"

  // ---------------------------------------------------------------- URLs

  /** The page of problem `pid`. */
  function ProblemPageUrl(pid: string): (url: string)
    ensures ProblemCodeOf(url) == Some(pid)
  {
    assert (ProblemPagePrefix + pid)[..|ProblemPagePrefix|] == ProblemPagePrefix;
    ProblemPagePrefix + pid
  }

  /** Reads the problem code back from a problem page URL. */
  function ProblemCodeOf(url: string): Option<string> {
    if StartsWith(url, ProblemPagePrefix) then Some(url[|ProblemPagePrefix|..]) else None
  }

  /** Problem page URLs and problem codes determine each other. */
  lemma ProblemPageRoundTrip(pid: string, url: string)
    ensures ProblemCodeOf(ProblemPageUrl(pid)) == Some(pid)
    ensures ProblemCodeOf(url) == Some(pid) ==> ProblemPageUrl(pid) == url
  {
    assert ProblemPageUrl(pid)[..|ProblemPagePrefix|] == ProblemPagePrefix;
    if ProblemCodeOf(url) == Some(pid) {
      assert url == url[..|ProblemPagePrefix|] + url[|ProblemPagePrefix|..];
    }
  }

  /** The run list filtered by problem code, user handle and run-id range. */
  function RunsUrl(problemCode: string, handle: string, idStart: string, idEnd: string): string {
    RunsPrefix + problemCode + "&handle=" + handle + "&idStart=" + idStart + "&idEnd=" + idEnd
  }

  /** `get_result`: the runs of one user on one problem, over every run id. */
  function UserRunsUrl(pid: string, handle: string): string {
    RunsUrl(pid, handle, "", "")
  }

  /** `get_result_by_rid_and_pid`: the single run `rid`, whatever its problem and user. */
  function RunUrl(rid: string): string {
    RunsUrl("", "", rid, rid)
  }

  /** Distinct run ids are looked up at distinct URLs. */
  lemma RunUrlInjective(a: string, b: string)
    requires RunUrl(a) == RunUrl(b)
    ensures a == b
  {
    var prefix := RunsPrefix + "" + "&handle=" + "" + "&idStart=";
    assert RunUrl(a) == prefix + (a + "&idEnd=" + a);
    assert RunUrl(b) == prefix + (b + "&idEnd=" + b);
    var ta, tb := a + "&idEnd=" + a, b + "&idEnd=" + b;
    assert ta == RunUrl(a)[|prefix|..] == tb;
    assert |a| == |b|;
    assert a == ta[..|a|] == tb[..|b|] == b;
  }

  /** The page a submission is posted to, for the internal problem id `problemId`. */
  function SubmitUrl(problemId: string): string {
    SubmitPrefix + problemId
  }

  /**
   * The group of `problemId=(\d*)"><font color="blue">Submit</font>`: the
   * internal id in the first submit link of the page (possibly empty).
   */
  function SubmitLinkId(text: string): (r: Option<string>)
    ensures r.Some? ==> forall k :: 0 <= k < |r.value| ==> IsDigit(r.value[k])
  {
    match DigitsSearch(text, SubmitLinkStart, SubmitLinkEnd, 0)
    case None => None
    case Some(i) =>
      var j := i + |SubmitLinkStart|;
      var id := text[j..j + DigitRun(text, j)];
      assert forall k :: 0 <= k < |id| ==> IsDigit(id[k]) by {
        DigitRunIsDigits(text, j);
        assert forall k :: 0 <= k < |id| ==> id[k] == text[j + k];
      }
      Some(id)
  }

  // ---------------------------------------------------------------- verdicts

  predicate IsAccepted(verdict: string) {
    verdict == "Accepted"
  }

  predicate IsCompileError(verdict: string) {
    verdict == "Compilation Error"
  }

  predicate IsRunning(verdict: string) {
    verdict in ["Queuing", "Compiling"]
  }

  /** `is_waiting_for_judge`: the verdict is still queued or compiling. */
  predicate IsWaitingForJudge(verdict: string) {
    verdict in ["Queuing", "Compiling"]
  }

  /** No verdict is in two classes; waiting for the judge is the same as running. */
  lemma VerdictsDisjoint(verdict: string)
    ensures !(IsAccepted(verdict) && IsCompileError(verdict))
    ensures !(IsAccepted(verdict) && IsRunning(verdict))
    ensures !(IsCompileError(verdict) && IsRunning(verdict))
    ensures IsWaitingForJudge(verdict) <==> IsRunning(verdict)
  {
  }

  // ---------------------------------------------------------------- cookies

  /** `set_cookies`: only an argument whose type is exactly `dict` is merged into the jar. */
  function SetCookiesOn(jar: Jar, arg: CookieArg): (r: Jar)
    ensures arg.PlainDict? ==>
      && r.Keys == jar.Keys + arg.entries.Keys
      && (forall k :: k in arg.entries ==> r[k] == arg.entries[k])
      && (forall k :: k in jar && k !in arg.entries ==> r[k] == jar[k])
    ensures !arg.PlainDict? ==> r == jar
  {
    if arg.PlainDict? then jar + arg.entries else jar
  }

  /** Giving the jar back to `set_cookies` leaves it as it is. */
  lemma SetOwnCookies(jar: Jar)
    ensures SetCookiesOn(jar, PlainDict(jar)) == jar
  {
  }

  // ---------------------------------------------------------------- the protocol

  /** A response that is true and whose text contains `pattern`; text None makes the search raise. */
  function ProbeOn(n: Net, pattern: string): (r: (Outcome<bool>, Net))
    ensures r.1.trace == n.trace + [Request.Get(HomePageUrl)] && r.1.cookies == n.cookies
  {
    var (res, n1) := Exchange(n, Request.Get(HomePageUrl));
    if !Answered(res) then (Ok(false), n1)
    else if res.value.text.None? then (Raised(TypeError), n1)
    else (Ok(Search(pattern, res.value.text.value)), n1)
  }

  /** `check_login_status`. */
  function CheckLoginStatusOn(n: Net): (r: (Outcome<bool>, Net))
    ensures r.1.trace == n.trace + [Request.Get(HomePageUrl)] && r.1.cookies == n.cookies
  {
    ProbeOn(n, LogoutPattern)
  }

  /** `check_status`: the home page greets its visitors. */
  function CheckStatusOn(n: Net): (r: (Outcome<bool>, Net))
    ensures r.1.trace == n.trace + [Request.Get(HomePageUrl)] && r.1.cookies == n.cookies
  {
    ProbeOn(n, WelcomeMark)
  }

  function LoginForm(account: Account): Form {
    map["handle" := account.username, "password" := account.password]
  }

  /** The session as the probe finds it: the account's saved cookies, if any, merged into the jar. */
  function Resumed(n: Net, account: Account): (n0: Net)
    ensures n0.replies == n.replies && n0.trace == n.trace
    ensures forall k :: k in account.cookies ==> k in n0.cookies && n0.cookies[k] == account.cookies[k]
    ensures forall k :: k in n.cookies && k !in account.cookies ==> k in n0.cookies && n0.cookies[k] == n.cookies[k]
    ensures forall k :: k in n0.cookies ==> k in n.cookies || k in account.cookies
  {
    if account.cookies != map[] then n.(cookies := n.cookies + account.cookies) else n
  }

  /** `login_website`: the account's saved cookies are merged, then the session is probed, signed in if needed, and probed again. */
  function LoginWebsiteOn(n: Net, account: Account): (r: (Outcome<bool>, Net))
    ensures r.1.cookies == Resumed(n, account).cookies
    ensures |n.trace| < |r.1.trace| && r.1.trace[..|n.trace|] == n.trace
    ensures r.1.trace[|r.1.trace| - 1] == Request.Get(HomePageUrl)
  {
    var (probe, n1) := CheckLoginStatusOn(Resumed(n, account));
    if probe.Raised? || probe.value then (probe, n1)
    else
      var (_, n2) := Exchange(n1, Request.Post(LoginUrl, LoginForm(account)));
      CheckLoginStatusOn(n2)
  }

  /** `get_problem`: one GET of the problem page, its answer parsed. */
  function GetProblemOn(n: Net, pid: string): (r: (Outcome<Problem>, Net))
    ensures r.1.trace == n.trace + [Request.Get(ProblemPageUrl(pid))] && r.1.cookies == n.cookies
  {
    var url := ProblemPageUrl(pid);
    var (res, n1) := Exchange(n, Request.Get(url));
    (ProblemOf(res, pid, url), n1)
  }

  function SubmitForm(pid: string, language: string, code: string): Form {
    map["languageId" := language, "problemId" := pid, "source" := code]
  }

  /** A request that submits a solution. */
  predicate IsSubmission(rq: Request) {
    rq.Post? && StartsWith(rq.url, SubmitPrefix)
  }

  /** `submit_code`: sign in, read the internal id off the problem page, post the solution. */
  function SubmitCodeOn(n: Net, account: Account, pid: string, language: string, code: string): (r: (Outcome<bool>, Net))
    ensures |n.trace| < |r.1.trace| && r.1.trace[..|n.trace|] == n.trace
    ensures r.0 == Ok(true) ==> r.1.trace[|r.1.trace| - 1].Post?
  {
    var (login, n1) := LoginWebsiteOn(n, account);
    if login.Raised? || !login.value then (login, n1)
    else
      var (page, n2) := Exchange(n1, Request.Get(ProblemPageUrl(pid)));
      if page.None? then (Ok(false), n2)
      else if page.value.text.None? then (Raised(TypeError), n2)
      else match SubmitLinkId(page.value.text.value)
        case None => (Raised(AttributeError), n2)
        case Some(problemId) =>
          var (sent, n3) := Exchange(n2, Request.Post(SubmitUrl(problemId), SubmitForm(pid, language, code)));
          (Ok(Ok200(sent)), n3)
  }

  /** The language table: `languages[option.get('value')] = option.string`, a later option overriding an earlier one. */
  function LanguagesOf(options: seq<Node>): map<Option<string>, Option<string>>
    requires forall k :: 0 <= k < |options| ==> options[k].Tag?
  {
    if options == [] then map[]
    else
      var last := options[|options| - 1];
      LanguagesOf(options[..|options| - 1])[GetAttr(last.attrs, "value") := StringOf(last)]
  }

  /** The `option` tags of the `languageId` select, or None when the page has no such select. */
  function LanguageOptions(soup: seq<Node>): (r: Option<seq<Node>>)
    ensures r.Some? ==> forall k :: 0 <= k < |r.value| ==> r.value[k].Tag?
  {
    match Find(soup, NamedWith("select", "name", "languageId"))
    case None => None
    case Some(select) =>
      var options := FindAll(select.children, Named("option"));
      assert forall k :: 0 <= k < |options| ==> options[k] in options;
      Some(options)
  }

  /**
   * `find_language`: None when signing in fails; otherwise the table read
   * from the language page, empty when that page or its select is missing
   * (the `finally` returns whatever was gathered).
   */
  function FindLanguageOn(n: Net, account: Account): (r: (Outcome<Option<map<Option<string>, Option<string>>>>, Net))
    ensures r.0 == Ok(None) <==> LoginWebsiteOn(n, account).0 == Ok(false)
    ensures r.0.Raised? <==> LoginWebsiteOn(n, account).0.Raised?
    ensures r.0.Ok? && r.0.value.Some? ==>
      r.1.trace == LoginWebsiteOn(n, account).1.trace + [Request.Get(LanguagePageUrl)]
  {
    var (login, n1) := LoginWebsiteOn(n, account);
    if login.Raised? then (Raised(login.exception), n1)
    else if !login.value then (Ok(None), n1)
    else
      var (res, n2) := Exchange(n1, Request.Get(LanguagePageUrl));
      if res.None? || res.value.text.None? then (Ok(Some(map[])), n2)
      else match LanguageOptions(res.value.soup)
        case None => (Ok(Some(map[])), n2)
        case Some(options) => (Ok(Some(LanguagesOf(options))), n2)
  }

  /** `get_result_by_url`: one GET, its answer parsed. */
  function GetResultByUrlOn(n: Net, url: string): (r: (Result, Net))
    ensures r.1.trace == n.trace + [Request.Get(url)] && r.1.cookies == n.cookies
  {
    var (res, n1) := Exchange(n, Request.Get(url));
    (ResultOf(res), n1)
  }

  /** `get_result`: the latest run of the account on problem `pid`. */
  function GetResultOn(n: Net, account: Account, pid: string): (r: (Result, Net))
    ensures r.1.trace == n.trace + [Request.Get(UserRunsUrl(pid, account.username))]
  {
    GetResultByUrlOn(n, UserRunsUrl(pid, account.username))
  }

  /** `get_result_by_rid_and_pid`: run `rid`; `pid` is not used. */
  function GetResultByRidAndPidOn(n: Net, rid: string, pid: string): (r: (Result, Net))
    ensures r.1.trace == n.trace + [Request.Get(RunUrl(rid))]
  {
    GetResultByUrlOn(n, RunUrl(rid))
  }

  // ---------------------------------------------------------------- protocol properties

  /**
   * Signing in merges the account's cookies into the jar (each of them set,
   * every other cookie kept), then issues a probe, or a probe, the sign-in
   * POST and a second probe.
   */
  lemma LoginMergesCookies(n: Net, account: Account)
    ensures var n' := LoginWebsiteOn(n, account).1;
      && n'.cookies.Keys == n.cookies.Keys + account.cookies.Keys
      && (forall k :: k in account.cookies ==> n'.cookies[k] == account.cookies[k])
      && (forall k :: k in n.cookies && k !in account.cookies ==> n'.cookies[k] == n.cookies[k])
      && (n'.trace == n.trace + [Request.Get(HomePageUrl)]
          || n'.trace == n.trace + [Request.Get(HomePageUrl), Request.Post(LoginUrl, LoginForm(account)),
                                    Request.Get(HomePageUrl)])
  {
    var n0 := Resumed(n, account);
    assert n0.cookies == n.cookies + account.cookies;
    var (probe, n1) := CheckLoginStatusOn(n0);
    if !(probe.Raised? || probe.value) {
      var (_, n2) := Exchange(n1, Request.Post(LoginUrl, LoginForm(account)));
      assert n2.cookies == n0.cookies;
    }
  }

  /**
   * A session the probe finds signed in, once any saved cookies are merged,
   * is kept: the only request is the probe, and the credentials are not posted.
   */
  lemma SignedInSessionKept(n: Net, account: Account)
    requires CheckLoginStatusOn(Resumed(n, account)).0 == Ok(true)
    ensures LoginWebsiteOn(n, account) == CheckLoginStatusOn(Resumed(n, account))
    ensures LoginWebsiteOn(n, account).1.trace == n.trace + [Request.Get(HomePageUrl)]
  {
  }

  lemma {:induction false} LoginSubmitsNothing(n: Net, account: Account)
    ensures var n' := LoginWebsiteOn(n, account).1;
      && n'.trace[..|n.trace|] == n.trace
      && forall k :: |n.trace| <= k < |n'.trace| ==> !IsSubmission(n'.trace[k])
  {
    LoginMergesCookies(n, account);
    assert |LoginUrl| < |SubmitPrefix|;
  }

  /**
   * `submit_code` posts a solution only after signing in and reading the
   * problem page, and only once, as its last request; without a sign-in or
   * without a page it answers false (or the exception the probe raised)
   * and posts nothing.
   */
  lemma SubmitOrdering(n: Net, account: Account, pid: string, language: string, code: string)
    ensures var (login, n1) := LoginWebsiteOn(n, account);
      var (r, n') := SubmitCodeOn(n, account, pid, language, code);
      && (login != Ok(true) ==> r == login && n' == n1)
      && (login == Ok(true) && Exchange(n1, Request.Get(ProblemPageUrl(pid))).0.None? ==>
            r == Ok(false) && n'.trace == n1.trace + [Request.Get(ProblemPageUrl(pid))])
      && n'.trace[..|n.trace|] == n.trace
      && forall k :: |n.trace| <= k < |n'.trace| - 1 ==> !IsSubmission(n'.trace[k])
  {
    var (login, n1) := LoginWebsiteOn(n, account);
    LoginSubmitsNothing(n, account);
    if login == Ok(true) {
      var (page, n2) := Exchange(n1, Request.Get(ProblemPageUrl(pid)));
      assert |ProblemPageUrl(pid)| >= 0;
      assert !IsSubmission(Request.Get(ProblemPageUrl(pid)));
      var n' := SubmitCodeOn(n, account, pid, language, code).1;
      assert n'.trace == n2.trace || |n'.trace| == |n2.trace| + 1;
    }
  }

  /**
   * A submission is reported accepted by the remote exactly when, after a
   * sign-in and a GET of the problem page, the solution was posted to the
   * submit URL of the id read off that page and answered with status 200.
   */
  lemma SubmitTrueMeansPosted(n: Net, account: Account, pid: string, language: string, code: string)
    ensures var (r, n') := SubmitCodeOn(n, account, pid, language, code);
      var (login, n1) := LoginWebsiteOn(n, account);
      var (page, n2) := Exchange(n1, Request.Get(ProblemPageUrl(pid)));
      r == Ok(true) <==>
        && login == Ok(true)
        && page.Some? && page.value.text.Some?
        && SubmitLinkId(page.value.text.value).Some?
        && var post := Request.Post(SubmitUrl(SubmitLinkId(page.value.text.value).value), SubmitForm(pid, language, code));
           n'.trace == n1.trace + [Request.Get(ProblemPageUrl(pid)), post]
           && IsSubmission(post)
           && Ok200(Exchange(n2, post).0)
  {
  }

  /**
   * The language table maps each option value to the text of the last
   * option with that value, and has no other keys.
   */
  lemma {:induction false} LanguagesOfLast(options: seq<Node>, k: nat)
    requires forall j :: 0 <= j < |options| ==> options[j].Tag?
    requires k < |options|
    requires forall j :: k < j < |options| ==> GetAttr(options[j].attrs, "value") != GetAttr(options[k].attrs, "value")
    ensures GetAttr(options[k].attrs, "value") in LanguagesOf(options)
    ensures LanguagesOf(options)[GetAttr(options[k].attrs, "value")] == StringOf(options[k])
  {
    if k < |options| - 1 {
      LanguagesOfLast(options[..|options| - 1], k);
    }
  }

  lemma {:induction false} LanguagesOfKeys(options: seq<Node>)
    requires forall j :: 0 <= j < |options| ==> options[j].Tag?
    ensures LanguagesOf(options).Keys == set j | 0 <= j < |options| :: GetAttr(options[j].attrs, "value")
  {
    if options != [] {
      var init := options[..|options| - 1];
      LanguagesOfKeys(init);
      assert forall j :: 0 <= j < |init| ==> init[j] == options[j];
    }
  }

  /** Without a sign-in there is no language table; the language page is then never fetched. */
  lemma NoLanguagesWithoutLogin(n: Net, account: Account)
    requires LoginWebsiteOn(n, account).0 == Ok(false)
    ensures FindLanguageOn(n, account) == (Ok(None), LoginWebsiteOn(n, account).1)
  {
  }

  /** The loop of `find_language`: each option's value is mapped to its text, in document order. */
  method ReadLanguages(options: seq<Node>) returns (languages: map<Option<string>, Option<string>>)
    requires forall k :: 0 <= k < |options| ==> options[k].Tag?
    ensures languages == LanguagesOf(options)
  {
    languages := map[];
    var i := 0;
    while i < |options|
      invariant 0 <= i <= |options|
      invariant languages == LanguagesOf(options[..i])
    {
      assert options[..i + 1][..i] == options[..i];
      languages := languages[GetAttr(options[i].attrs, "value") := StringOf(options[i])];
      i := i + 1;
    }
    assert options[..i] == options;
  }

  // ---------------------------------------------------------------- the adapter

  class ZOJ {
    const req: Session

    constructor (script: seq<Reply>)
      ensures fresh(req) && req.State() == Net(map[], script, [])
    {
      req := new Session(script);
    }

    /** `get_cookies`. */
    function GetCookies(): Jar
      reads req
    {
      req.GetDict()
    }

    method SetCookies(arg: CookieArg)
      modifies req
      ensures req.State() == old(req.State()).(cookies := SetCookiesOn(old(req.cookies), arg))
    {
      if arg.PlainDict? {
        req.Update(arg.entries);
      }
    }

    method CheckLoginStatus() returns (o: Outcome<bool>)
      modifies req
      ensures (o, req.State()) == CheckLoginStatusOn(old(req.State()))
    {
      o := Probe(LogoutPattern);
    }

    method CheckStatus() returns (o: Outcome<bool>)
      modifies req
      ensures (o, req.State()) == CheckStatusOn(old(req.State()))
    {
      o := Probe(WelcomeMark);
    }

    method Probe(pattern: string) returns (o: Outcome<bool>)
      modifies req
      ensures (o, req.State()) == ProbeOn(old(req.State()), pattern)
    {
      var res := req.Get(HomePageUrl);
      if !Answered(res) {
        o := Ok(false);
      } else if res.value.text.None? {
        o := Raised(TypeError);
      } else {
        o := Ok(Search(pattern, res.value.text.value));
      }
    }

    method LoginWebsite(account: Account) returns (o: Outcome<bool>)
      modifies req
      ensures (o, req.State()) == LoginWebsiteOn(old(req.State()), account)
    {
      if account.cookies != map[] {
        req.Update(account.cookies);
      }
      o := CheckLoginStatus();
      if o.Raised? || o.value {
        return;
      }
      var _ := req.Post(LoginUrl, LoginForm(account));
      o := CheckLoginStatus();
    }

    method GetProblem(pid: string) returns (o: Outcome<Problem>)
      modifies req
      ensures (o, req.State()) == GetProblemOn(old(req.State()), pid)
    {
      var url := ProblemPageUrl(pid);
      var res := req.Get(url);
      o := ProblemParse(res, pid, url);
    }

    method SubmitCode(account: Account, pid: string, language: string, code: string) returns (o: Outcome<bool>)
      modifies req
      ensures (o, req.State()) == SubmitCodeOn(old(req.State()), account, pid, language, code)
    {
      o := LoginWebsite(account);
      if o.Raised? || !o.value {
        return;
      }
      var res := req.Get(ProblemPageUrl(pid));
      if res.None? {
        return Ok(false);
      } else if res.value.text.None? {
        return Raised(TypeError);
      }
      var problemId := SubmitLinkId(res.value.text.value);
      if problemId.None? {
        return Raised(AttributeError);
      }
      var sent := req.Post(SubmitUrl(problemId.value), SubmitForm(pid, language, code));
      o := Ok(Ok200(sent));
    }

    method FindLanguage(account: Account) returns (o: Outcome<Option<map<Option<string>, Option<string>>>>)
      modifies req
      ensures (o, req.State()) == FindLanguageOn(old(req.State()), account)
    {
      var login := LoginWebsite(account);
      if login.Raised? {
        return Raised(login.exception);
      } else if !login.value {
        return Ok(None);
      }
      var languages: map<Option<string>, Option<string>> := map[];
      var res := req.Get(LanguagePageUrl);
      if res.None? || res.value.text.None? {
        return Ok(Some(languages));
      }
      var options := LanguageOptions(res.value.soup);
      if options.None? {
        return Ok(Some(languages));
      }
      languages := ReadLanguages(options.value);
      o := Ok(Some(languages));
    }

    method GetResultByUrl(url: string) returns (r: Result)
      modifies req
      ensures (r, req.State()) == GetResultByUrlOn(old(req.State()), url)
    {
      var res := req.Get(url);
      r := ResultParse(res);
    }

    method GetResult(account: Account, pid: string) returns (r: Result)
      modifies req
      ensures (r, req.State()) == GetResultOn(old(req.State()), account, pid)
    {
      r := GetResultByUrl(UserRunsUrl(pid, account.username));
    }

    method GetResultByRidAndPid(rid: string, pid: string) returns (r: Result)
      modifies req
      ensures (r, req.State()) == GetResultByRidAndPidOn(old(req.State()), rid, pid)
    {
      r := GetResultByUrl(RunUrl(rid));
    }
  }
}
