# OnlineJudgeSpider, modelled in Dafny

OnlineJudgeSpider fetches problems from remote online judges, submits
solutions to them and reads back verdicts. This project models three parts
of it:

- **The registry and the `Controller`** (`VirtualJudgeSpider/Control.py`).
  `supports` lists the canonical judge names. `get_real_remote_oj` finds a
  name's canonical spelling, ignoring case. `OJBuilder.build_oj` builds the
  adapter for a name. The `Controller` holds one adapter and the caller's
  original name, and forwards every call to the adapter. Without an adapter
  it answers a sentinel.
- **The Codeforces adapter** (`spider/platforms/codeforces.py`).
  - The problem-id check and the URLs built from an id.
  - Signing in, and the protocol of `submit_code`.
  - The cookie jar and the verdict predicates.
  - `CodeforcesParser.problem_parse`, which assembles the statement and
    tags each part as TITLE or CONTENT.
  - `CodeforcesParser.result_parse`, which joins the verdict text.
- **The ZOJ adapter** (`VirtualJudgeSpider/OJs/zoj.py`).
  - The URLs, signing in over a cookie jar the caller may seed, and
    submission.
  - The language list, the run lookups and the verdict predicates.
  - Its two parsers, which classify a response in a fixed order.

The modules are:

- `Wrappers`: `Option`, and `Outcome`, which is a value or the Python
  exception raised.
- `Text`: ASCII string operations and the few regular expressions the
  adapters use.
- `Html`: the parsed page as a tree, with bs4's queries.
- `Http`: responses, requests and the session.
- `Config`: `Problem`, `Result` and `Account`.
- `CodeforcesParser`, `Codeforces`, `ZojParser`, `Zoj` and `Control`.

The session holds a cookie jar and a script of replies. The script is what
the remote answers, in order; once it runs out, every request gets None, as
after a timeout. A ghost trace records every request issued. Each operation
that talks to the remote is written twice:

- a function over the session state (`...On`), giving the answer and the
  requests issued, in order;
- a method of the adapter class, proved to do exactly what that function
  says.

The lemmas about ordering are stated on the functions. Examples: no request
for a malformed Codeforces id, no submission without a sign-in, at most one
submission and only as the last request.

An exception the code lets escape becomes `Outcome.Raised`. Examples: `re.search`
on a missing text, `.get` on a tag `find` did not find, `contents[-1]` of an
empty tag. An exception the code catches is modelled as caught.

The model follows the code in these places:

- ZOJ `find_language` returns None, not an empty mapping, when signing in
  fails (zoj.py:155-156). The Controller forwards that None.
- Codeforces `problem_parse` raises IndexError when a time- or
  memory-limit block is empty (codeforces.py:58-63). ZOJ `problem_parse`
  applies `re.search` to the text outside its `try`, so a response without
  text raises TypeError (zoj.py:37).
- The ZOJ parsers keep every field assigned before the step that failed.
- A Codeforces title block whose `.string` is None is turned into `str(None)[2:]`,
  so the title is "ne" (codeforces.py:56-57).
- Codeforces `set_cookies` accepts any `dict`, including instances of a
  subclass (`isinstance`). ZOJ accepts only an exact `dict`
  (`type(...) == dict`). `Http.CookieArg` tells the cases apart.

## Model

| member | source | states |
|---|---|---|
| Control.Lookup | VirtualJudgeSpider/Control.py:34-37 | the answer is a listed name equal to the given one ignoring case; None exactly when no listed name is |
| Control.RealRemoteOj | VirtualJudgeSpider/Control.py:28-37 | the answer is a supported name equal to the given one ignoring case; None exactly when no supported name is |
| Control.GetRealRemoteOj | VirtualJudgeSpider/Control.py:27-37 | the early-return loop over `supports` returns the lookup's answer: a supported name equal to the argument ignoring case, or None |
| Control.SupportsUpperDistinct | VirtualJudgeSpider/Control.py:3 | no two supported names coincide once upper-cased |
| Control.LookupComplete | VirtualJudgeSpider/Control.py:34-37 | when the names are distinct ignoring case, any casing of a listed name finds exactly that name |
| Control.RealRemoteOjComplete | VirtualJudgeSpider/Control.py:28-37 | every casing of a supported name ("zoj", "Zoj", "ZOJ") resolves to that exact name |
| Control.RealRemoteOjIdempotent | VirtualJudgeSpider/Control.py:34-36 | a resolved name resolves to itself, so resolving twice equals resolving once |
| Control.IsSupportIffResolved | VirtualJudgeSpider/Control.py:46-49 | `is_support` is true exactly when `get_real_remote_oj` finds a name |
| Control.GetSupports | VirtualJudgeSpider/Control.py:41-42 | the names returned are exactly the names that resolve to themselves; each is supported; no two differ only in case |
| Control.BuildOj | VirtualJudgeSpider/Control.py:8-18 | with ZOJ's the only adapter module, an adapter is built exactly for a present, non-empty name that has a module, and that name is "ZOJ"; otherwise the answer is null, never an exception |
| Control.NoJudgeProblem | VirtualJudgeSpider/Control.py:58-63 | the sentinel problem has status OJ_NOT_EXIST, the caller's original name as `remote_oj`, `pid` as `remote_id`; URL, title, limits, special judge and html are unset |
| Control.Controller.constructor | VirtualJudgeSpider/Control.py:22-25 | the original name is kept as given and the canonical name is the one it resolves to; an adapter exists exactly when the canonical name builds one, and then that name is "ZOJ"; all are constants |
| Control.Controller.GetProblem | VirtualJudgeSpider/Control.py:57-64 | without an adapter, the sentinel problem; with one, exactly the adapter's answer and effect |
| Control.Controller.SubmitCode | VirtualJudgeSpider/Control.py:67-70 | without an adapter, None; with one, the adapter's answer and effect |
| Control.Controller.GetResult | VirtualJudgeSpider/Control.py:73-76 | without an adapter, None; with one, the adapter's answer and effect |
| Control.Controller.GetResultByRidAndPid | VirtualJudgeSpider/Control.py:79-82 | without an adapter, None; with one, the adapter's answer and effect |
| Control.Controller.FindLanguage | VirtualJudgeSpider/Control.py:85-88 | without an adapter, None; with one, the adapter's answer and effect |
| Control.Controller.CheckStatus | VirtualJudgeSpider/Control.py:97-100 | without an adapter, None; with one, the adapter's answer and effect |
| Control.Controller.GetHomePageUrl | VirtualJudgeSpider/Control.py:51-54 | None exactly when there is no adapter |
| Control.Controller.IsWaitingForJudge | VirtualJudgeSpider/Control.py:91-94 | None exactly when there is no adapter |
| Control.Controller.IsAccepted | VirtualJudgeSpider/Control.py:102-105 | None exactly when there is no adapter |
| Control.Controller.IsRunning | VirtualJudgeSpider/Control.py:107-110 | None exactly when there is no adapter |
| Control.Controller.IsCompileError | VirtualJudgeSpider/Control.py:112-115 | None exactly when there is no adapter |
| Control.NoAdapterAnswersNone | VirtualJudgeSpider/Control.py:51-115 | without an adapter, the home page URL and the four verdict queries answer None |
| Control.ControllerVerdicts | VirtualJudgeSpider/Control.py:91-115 | with ZOJ's adapter, the home page URL and verdict queries are the adapter's; waiting equals running; no verdict is accepted and also running or a compile error |
| CodeforcesParser.ProblemOf | spider/platforms/codeforces.py:35-87 | `remote_oj`/`remote_id`/`remote_url` always set; a missing, non-200 or text-less response is RETRYABLE; otherwise it raises IndexError exactly when a time- or memory-limit block it finds is empty, and is SUCCESS in every other case, with the title and limits read as `TitleOf` and `LimitOf` say and html "<html>" + statement + script + "</html>" |
| CodeforcesParser.TitleOf | spider/platforms/codeforces.py:53-57 | a title exactly when the page has a title block; "ne" when that block has no single string; otherwise its string without the first two characters |
| CodeforcesParser.LimitOf | spider/platforms/codeforces.py:58-63 | IndexError exactly when the limit block is found and has no children; no limit exactly when there is no such block |
| CodeforcesParser.ProblemParse | spider/platforms/codeforces.py:35-87 | the loop that appends the statement child by child yields `ProblemOf` |
| CodeforcesParser.LabelGrandchildren | spider/platforms/codeforces.py:72-81 | the loop over a child's tags labels each grandchild as `LabelAll` says |
| CodeforcesParser.WithoutHeaders | spider/platforms/codeforces.py:67-70 | what is left after dropping the children whose class names `header` has no header in it |
| CodeforcesParser.HeadersContributeNothing | spider/platforms/codeforces.py:66-70 | the statement is the same with the header children removed |
| CodeforcesParser.LabelRoles | spider/platforms/codeforces.py:72-81 | each tag grandchild gets exactly one role appended to its classes, TITLE iff it is a `section-title`, and that role's style; name and children unchanged; strings untouched |
| CodeforcesParser.LastRowCells | spider/platforms/codeforces.py:93-98 | the cells of the last row of the first table are tags |
| CodeforcesParser.ResultOf | spider/platforms/codeforces.py:89-110 | SUCCESS iff the response is usable and the last row has more than nine cells; then key, time and memory come from cells 0, 5 and 6, `verdict_info` is cell 4's stripped strings joined by single spaces, and `verdict` is left unset because the parser never assigns it; otherwise a bare RESULT_ERROR |
| CodeforcesParser.ResultParse | spider/platforms/codeforces.py:89-110 | the loop appending each stripped string and a space, then stripping spaces, yields `ResultOf` |
| CodeforcesParser.VerdictInfoTrimmed | spider/platforms/codeforces.py:102-105 | `verdict_info` is empty iff cell 4 has no text, and has no space at either end |
| Text.StripSpaced | spider/platforms/codeforces.py:102-105 | appending each trimmed item and a space, then stripping spaces, joins the items with single spaces |
| Codeforces.ParseProblemUrl | spider/platforms/codeforces.py:165-171 | the id read back from a statement URL passes the id check |
| Codeforces.ProblemUrlRoundTrip | spider/platforms/codeforces.py:165-171 | every valid id is read back from the URL built for it |
| Codeforces.ParsedUrlIsProblemUrl | spider/platforms/codeforces.py:171 | a URL that reads as an id is exactly the URL built for that id |
| Codeforces.SubmissionInProblemContest | spider/platforms/codeforces.py:219-220 | the submission URL and the statement URL share the contest path; the submission URL ends in "submission/" + rid |
| Codeforces.VerdictsDisjoint | spider/platforms/codeforces.py:247-259 | no verdict is in two of accepted, compile error and running; "" is in none |
| Codeforces.SetCookiesOn | spider/platforms/codeforces.py:125-127 | a dict argument sets each of its cookies and keeps the others; anything else changes nothing |
| Codeforces.SetOwnCookies | spider/platforms/codeforces.py:122-127 | setting the cookies `get_cookies` returns leaves the jar unchanged |
| Codeforces.IsLoginOn | spider/platforms/codeforces.py:153-157 | one GET of the home page; the jar is unchanged (response cookies are not modelled) |
| Codeforces.GetProblemOn | spider/platforms/codeforces.py:163-173 | STATUS_ERROR iff the id fails the check, with remote_oj "Codeforces", remote_id pid and no request; a valid id costs exactly one GET, of the statement URL |
| Codeforces.GetResultByUrlOn | spider/platforms/codeforces.py:223-225 | one GET of the given URL |
| Codeforces.GetResultByRidAndPidOn | spider/platforms/codeforces.py:219-220 | one GET, of the submission URL of `rid` in the contest of `pid` |
| Codeforces.IsWorkingOn | spider/platforms/codeforces.py:243-244 | one GET of the home page; true iff it is answered with status 200 |
| Codeforces.LoginRequestIsNoSubmission | spider/platforms/codeforces.py:134-147 | no request of the sign-in is a submission |
| Codeforces.LoginRequests | spider/platforms/codeforces.py:130-150 | signing in issues one to four requests, all to the sign-in pages, none a submission, and leaves the jar unchanged (response cookies are not modelled) |
| Codeforces.SignedInSessionKept | spider/platforms/codeforces.py:131-132 | a session already signed in sends no credentials |
| Codeforces.TrySignIn | spider/platforms/codeforces.py:133-149 | never raises; one GET of the sign-in page, then at most one POST, to the sign-in URL; the jar is unchanged (response cookies are not modelled) |
| Codeforces.LoginWebsiteOn | spider/platforms/codeforces.py:130-150 | the requests so far are kept and the last request is always a fresh probe of the home page, whose answer is returned |
| Codeforces.SubmitCodeOn | spider/platforms/codeforces.py:176-198 | at least one request is issued; the answer is SPIDER_ERROR, SUBMIT_SUCCESS or SUBMIT_ERROR, or an exception; the last two only after a POST as the last request |
| Codeforces.NoSubmissionWithoutLogin | spider/platforms/codeforces.py:177-178 | a failed sign-in gives SPIDER_ERROR (or the exception raised) and no submission |
| Codeforces.NoSubmissionWithoutPage | spider/platforms/codeforces.py:179-181 | a missing submit page gives SPIDER_ERROR after a single GET, with no POST |
| Codeforces.SubmitSuccessMeansPosted | spider/platforms/codeforces.py:182-198 | SUBMIT_SUCCESS iff, after a sign-in and a GET of the submit page, the solution was posted with the page's token and answered with status 200 |
| Codeforces.AtMostOneSubmission | spider/platforms/codeforces.py:176-198 | `submit_code` submits at most once, and only as its last request |
| Codeforces.Codeforces.constructor | spider/platforms/codeforces.py:114-115 | a fresh session with an empty jar |
| Codeforces.Codeforces.SetCookies | spider/platforms/codeforces.py:125-127 | the jar becomes `SetCookiesOn` of the old jar; nothing else changes |
| Codeforces.Codeforces.IsLogin | spider/platforms/codeforces.py:153-157 | answer and new session state are those of `IsLoginOn` |
| Codeforces.Codeforces.LoginWebsite | spider/platforms/codeforces.py:130-150 | answer and new session state are those of `LoginWebsiteOn` |
| Codeforces.Codeforces.GetProblem | spider/platforms/codeforces.py:163-173 | answer and new session state are those of `GetProblemOn` |
| Codeforces.Codeforces.SubmitCode | spider/platforms/codeforces.py:176-198 | answer and new session state are those of `SubmitCodeOn` |
| Codeforces.Codeforces.GetResultByUrl | spider/platforms/codeforces.py:223-225 | answer and new session state are those of `GetResultByUrlOn` |
| Codeforces.Codeforces.GetResultByRidAndPid | spider/platforms/codeforces.py:219-220 | answer and new session state are those of `GetResultByRidAndPidOn` |
| Codeforces.Codeforces.IsWorking | spider/platforms/codeforces.py:243-244 | answer and new session state are those of `IsWorkingOn` |
| ZojParser.DigitsThenShape | VirtualJudgeSpider/OJs/zoj.py:44-45 | a match of `(\d* Second)` or `(\d* KB)` is a run of digits followed by the unit |
| ZojParser.ProblemOf | VirtualJudgeSpider/OJs/zoj.py:22-69 | `remote_oj` "ZOJ", id and URL always set; NETWORK_ERROR iff the response is false or not 200; then PROBLEM_NOT_EXIST iff the text says "No such problem"; then CRAWLING_SUCCESS iff every extraction step finds its target, with html = style block + statement; otherwise PARSE_ERROR; a missing text raises TypeError |
| ZojParser.ProblemParse | VirtualJudgeSpider/OJs/zoj.py:22-69 | assigning the fields one by one, stopping at the first failed step, yields `ProblemOf` |
| ZojParser.Extract | VirtualJudgeSpider/OJs/zoj.py:41-67 | CRAWLING_SUCCESS exactly when every step finds its target, otherwise PARSE_ERROR; fields assigned before the failed step stay set (the title whenever the title span is found, the time limit whenever the time also matches); the id, URL and judge name are untouched |
| ZojParser.StatementParse | VirtualJudgeSpider/OJs/zoj.py:48-64 | the loop over `content_body` yields the style block followed by the statement |
| ZojParser.PieceParse | VirtualJudgeSpider/OJs/zoj.py:51-64 | one pass of the loop appends what `Piece` says |
| ZojParser.Kept | VirtualJudgeSpider/OJs/zoj.py:52-56 | the kept children include no `center`, `hr`, sample link or comment |
| ZojParser.DroppedContributeNothing | VirtualJudgeSpider/OJs/zoj.py:51-64 | the statement is the same with `center`, `hr`, the sample link and comments removed |
| ZojParser.StyleOfKeptTag | VirtualJudgeSpider/OJs/zoj.py:57-63 | an `h2` gets the TITLE style; a tag that is neither `h2` nor a labelled `p` gets the CONTENT style |
| ZojParser.StyleFirstFinds | VirtualJudgeSpider/OJs/zoj.py:59-61 | after styling the first `b`, the first `b` is that tag with the style set |
| ZojParser.SectionLabelStyled | VirtualJudgeSpider/OJs/zoj.py:59-61 | in a `p` labelled Input/Output/Sample Input/Sample Output, the `b` holding the label gets the TITLE style |
| ZojParser.RunCells | VirtualJudgeSpider/OJs/zoj.py:80-81 | the cells found are `td` tags |
| ZojParser.ResultOf | VirtualJudgeSpider/OJs/zoj.py:71-93 | NETWORK_ERROR iff the response is missing or not 200; STATUS_RESULT iff the row has at least seven cells, with run id from cell 0, stripped verdict from cell 2, time and memory from cells 5 and 6; RESULT_NOT_EXIST iff the row has no cells; otherwise PARSE_ERROR |
| ZojParser.CellsResult | VirtualJudgeSpider/OJs/zoj.py:82-91 | RESULT_NOT_EXIST iff there are no cells; STATUS_RESULT iff there are at least seven; PARSE_ERROR otherwise; the run id is set whenever there is a cell, the verdict iff there are at least three, the time only with at least six |
| ZojParser.ResultParse | VirtualJudgeSpider/OJs/zoj.py:71-93 | assigning the fields one by one until a cell is missing yields `ResultOf` |
| Zoj.ProblemPageRoundTrip | VirtualJudgeSpider/OJs/zoj.py:129-133 | problem page URLs and problem codes determine each other |
| Zoj.RunUrlInjective | VirtualJudgeSpider/OJs/zoj.py:176-179 | distinct run ids are looked up at distinct URLs (`idStart` = `idEnd` = rid) |
| Zoj.SubmitLinkId | VirtualJudgeSpider/OJs/zoj.py:146 | the id read off the submit link is all digits |
| Zoj.VerdictsDisjoint | VirtualJudgeSpider/OJs/zoj.py:185-207 | no verdict is in two classes; `is_waiting_for_judge` equals `is_running` |
| Zoj.SetCookiesOn | VirtualJudgeSpider/OJs/zoj.py:115-117 | an exact dict sets each of its cookies and keeps the others; anything else changes nothing |
| Zoj.SetOwnCookies | VirtualJudgeSpider/OJs/zoj.py:112-117 | setting the cookies `get_cookies` returns leaves the jar unchanged |
| Zoj.ProblemPageUrl | VirtualJudgeSpider/OJs/zoj.py:131 | the problem code is read back from the problem page URL |
| Zoj.Resumed | VirtualJudgeSpider/OJs/zoj.py:120-121 | each of the account's saved cookies is set, every other cookie kept, and no other cookie added; no request is made |
| Zoj.LoginWebsiteOn | VirtualJudgeSpider/OJs/zoj.py:119-127 | the jar is the one with the account's cookies merged; the requests so far are kept and the last request is always a probe of the home page |
| Zoj.SubmitCodeOn | VirtualJudgeSpider/OJs/zoj.py:135-152 | at least one request is issued; true only when the last request is a POST |
| Zoj.FindLanguageOn | VirtualJudgeSpider/OJs/zoj.py:154-166 | None exactly when signing in answers false; an exception exactly when signing in raises; a table only after one GET of the language page following the sign-in |
| Zoj.ReadLanguages | VirtualJudgeSpider/OJs/zoj.py:163-164 | the loop over the options fills the table `LanguagesOf` describes |
| Zoj.ProbeOn | VirtualJudgeSpider/OJs/zoj.py:105-110 | one GET of the home page; the jar is unchanged (response cookies are not modelled) |
| Zoj.CheckLoginStatusOn | VirtualJudgeSpider/OJs/zoj.py:105-110 | one GET of the home page; the jar is unchanged (response cookies are not modelled) |
| Zoj.CheckStatusOn | VirtualJudgeSpider/OJs/zoj.py:190-195 | one GET of the home page; the jar is unchanged (response cookies are not modelled) |
| Zoj.GetProblemOn | VirtualJudgeSpider/OJs/zoj.py:129-133 | exactly one GET, of the problem page URL |
| Zoj.LanguageOptions | VirtualJudgeSpider/OJs/zoj.py:162 | the options found are tags |
| Zoj.GetResultByUrlOn | VirtualJudgeSpider/OJs/zoj.py:181-183 | one GET of the given URL |
| Zoj.GetResultOn | VirtualJudgeSpider/OJs/zoj.py:168-174 | one GET, of the run list of the account's user on `pid` |
| Zoj.GetResultByRidAndPidOn | VirtualJudgeSpider/OJs/zoj.py:176-179 | one GET, of the run list for the single run `rid` |
| Zoj.LoginMergesCookies | VirtualJudgeSpider/OJs/zoj.py:119-127 | the account's cookies are each set and every other cookie is kept; the requests are one probe, or a probe, the sign-in POST and a second probe |
| Zoj.SignedInSessionKept | VirtualJudgeSpider/OJs/zoj.py:119-123 | when the probe, after the account's saved cookies are merged, finds the session signed in, the answer is that probe's, its GET is the only request, and no credentials are sent |
| Zoj.LoginSubmitsNothing | VirtualJudgeSpider/OJs/zoj.py:119-127 | signing in issues no submission |
| Zoj.SubmitOrdering | VirtualJudgeSpider/OJs/zoj.py:135-152 | a failed sign-in answers false (or the exception raised) with nothing more; a missing page answers false after one GET; at most one submission, as the last request |
| Zoj.SubmitTrueMeansPosted | VirtualJudgeSpider/OJs/zoj.py:141-152 | true iff, after a sign-in and a GET of the problem page, the solution was posted to the id read off the page and answered with status 200 |
| Zoj.LanguagesOfLast | VirtualJudgeSpider/OJs/zoj.py:163-164 | each option value maps to the text of the last option with that value |
| Zoj.LanguagesOfKeys | VirtualJudgeSpider/OJs/zoj.py:163-164 | the table's keys are exactly the option values |
| Zoj.NoLanguagesWithoutLogin | VirtualJudgeSpider/OJs/zoj.py:155-156 | without a sign-in the answer is None and the language page is not fetched |
| Zoj.ZOJ.constructor | VirtualJudgeSpider/OJs/zoj.py:97-98 | a fresh session with an empty jar |
| Zoj.ZOJ.SetCookies | VirtualJudgeSpider/OJs/zoj.py:115-117 | the jar becomes `SetCookiesOn` of the old jar; nothing else changes |
| Zoj.ZOJ.Probe | VirtualJudgeSpider/OJs/zoj.py:105-110 | answer and new session state are those of `ProbeOn` |
| Zoj.ZOJ.CheckLoginStatus | VirtualJudgeSpider/OJs/zoj.py:105-110 | answer and new session state are those of `CheckLoginStatusOn` |
| Zoj.ZOJ.CheckStatus | VirtualJudgeSpider/OJs/zoj.py:190-195 | answer and new session state are those of `CheckStatusOn` |
| Zoj.ZOJ.LoginWebsite | VirtualJudgeSpider/OJs/zoj.py:119-127 | answer and new session state are those of `LoginWebsiteOn` |
| Zoj.ZOJ.GetProblem | VirtualJudgeSpider/OJs/zoj.py:129-133 | answer and new session state are those of `GetProblemOn` |
| Zoj.ZOJ.SubmitCode | VirtualJudgeSpider/OJs/zoj.py:135-152 | answer and new session state are those of `SubmitCodeOn` |
| Zoj.ZOJ.FindLanguage | VirtualJudgeSpider/OJs/zoj.py:154-166 | the loop filling the table yields the answer and state of `FindLanguageOn` |
| Zoj.ZOJ.GetResultByUrl | VirtualJudgeSpider/OJs/zoj.py:181-183 | answer and new session state are those of `GetResultByUrlOn` |
| Zoj.ZOJ.GetResult | VirtualJudgeSpider/OJs/zoj.py:168-174 | answer and new session state are those of `GetResultOn` |
| Zoj.ZOJ.GetResultByRidAndPid | VirtualJudgeSpider/OJs/zoj.py:176-179 | answer and new session state are those of `GetResultByRidAndPidOn` |

## Left out

- HTTP transport (`HttpUtil`, headers, timeouts, redirects): the remote's answers are a script of replies given in advance. Cookies the remote sets in its responses are not modelled. The jar changes only through `set_cookies` and the ZOJ sign-in merge.
- The cookie jar is a map from name to value, which is what `get_dict` yields. Domains and paths are not modelled.
- Parsing by lxml/BeautifulSoup: a response carries its tree alongside its text. Whether the two agree is not modelled.
- `HtmlTag.update_tag` is not part of this model. `Html.Render` stands in for `str(update_tag(tag, prefix))`, and no property depends on its exact text. The TITLE/CONTENT class names and styles of `HtmlTag` are placeholders. The MathJax script and the ZOJ style block are abbreviated constants.
- The parsers change tags of the response's tree in place. The model builds the changed tags as new values, so aliasing (the response's tree showing the changes afterwards) is not captured.
- Regular expressions: only the patterns the adapters use are implemented. These are literal text with `.` wildcards, and `pre\d*post`.
- `upper()`, `isalpha()`, `isnumeric()` and `strip()` are modelled on ASCII only.
- `Codeforces.get_result`, `Codeforces.find_language` and `Codeforces.account_required` (codeforces.py:159-160, 201-216, 228-240) are outside the modelled core. `get_result` also reads the text of a response that may be missing.
- `logger.exception` in the Codeforces sign-in: logging is not modelled. The exception is modelled as swallowed.
- An account of None: every modelled operation takes an account.
- Ids given as non-strings, and the `str()` conversions applied to them: ids are strings.
- The `**kwargs` the Controller passes through are not modelled.
- Adapters for Aizu, HDU, FZU, POJ and WUST are not part of this model. The registry is a parameter: the set of names whose adapter module exists. A registry holds at most "ZOJ", so an adapter is only ever built for ZOJ. The Codeforces adapter lives in another package and is not reachable from the Controller.
- Control.BuildOj and the Controller constructor require a registry of at most "ZOJ": the modules of the other judges are not part of this model, so building them is not modelled.
- Exceptions from code outside this model (`update_tag`, bs4 itself) are not modelled.
