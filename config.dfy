/**
 * The entities the spiders return. The configuration modules that define
 * them are not part of this model; their status constants become the
 * constructors below, and an attribute a parser never assigned is None.
 */
module Config {
  import opened Wrappers
  import opened Http

  /** `Problem.Status`. */
  datatype ProblemStatus =
    | ProblemSuccess          // STATUS_SUCCESS
    | ProblemCrawlingSuccess  // STATUS_CRAWLING_SUCCESS
    | ProblemRetryable        // STATUS_RETRYABLE
    | ProblemNetworkError     // STATUS_NETWORK_ERROR
    | ProblemNotExist         // STATUS_PROBLEM_NOT_EXIST
    | ProblemParseError       // STATUS_PARSE_ERROR
    | ProblemOjNotExist       // STATUS_OJ_NOT_EXIST
    | ProblemError            // STATUS_ERROR (a malformed problem id)

  datatype Problem = Problem(
    remoteOj: Option<string>,
    remoteId: Option<string>,
    remoteUrl: Option<string>,
    title: Option<string>,
    timeLimit: Option<string>,
    memoryLimit: Option<string>,
    specialJudge: Option<bool>,
    html: Option<string>,
    status: ProblemStatus)

  /** `Problem()` with its status assigned and nothing else. */
  function BlankProblem(status: ProblemStatus): Problem {
    Problem(None, None, None, None, None, None, None, None, status)
  }

  /** `Result.Status`. */
  datatype ResultStatus =
    | ResultSuccess       // STATUS_RESULT_SUCCESS
    | ResultError         // STATUS_RESULT_ERROR
    | ResultFound         // STATUS_RESULT
    | ResultNotExist      // STATUS_RESULT_NOT_EXIST
    | ResultNetworkError  // STATUS_NETWORK_ERROR
    | ResultParseError    // STATUS_PARSE_ERROR
    | SubmitSuccess       // STATUS_SUBMIT_SUCCESS
    | SubmitError         // STATUS_SUBMIT_ERROR
    | SpiderError         // STATUS_SPIDER_ERROR

  datatype Result = Result(
    uniqueKey: Option<string>,
    originRunId: Option<string>,
    verdict: Option<string>,
    verdictInfo: Option<string>,
    executeTime: Option<string>,
    executeMemory: Option<string>,
    status: ResultStatus)

  /** `Result(status)`: a result carrying only its status. */
  function BlankResult(status: ResultStatus): Result {
    Result(None, None, None, None, None, None, status)
  }

  /** A judge account; `cookies` is empty when the account has none saved. */
  datatype Account = Account(username: string, password: string, cookies: Jar)
}
