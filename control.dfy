/**
 * The entry point of VirtualJudgeSpider (`Control.py`): the list of supported
 * judges, the case-insensitive lookup of a judge's canonical name, the
 * builder that instantiates a judge's adapter, and the `Controller` that
 * holds one adapter and forwards every call to it.
 *
 * The builder imports the adapter module by name; here the modules that
 * exist are given as a registry, a set of names. The only adapter modelled
 * is ZOJ's, so a registry may hold "ZOJ" or nothing.
 */
module Control {
  import opened Wrappers
  import opened Text
  import opened Http
  import opened Config
  import opened Zoj

  /** `supports`: the canonical names of the supported judges. */
  const Supports: seq<string> := ["Aizu", "HDU", "FZU", "POJ", "WUST", "ZOJ"]

  /** The first of `names` equal to `name` ignoring case. */
  function Lookup(names: seq<string>, name: string): (r: Option<string>)
    ensures r.Some? ==> r.value in names && Upper(r.value) == Upper(name)
    ensures r.None? <==> forall s :: s in names ==> Upper(s) != Upper(name)
  {
    if names == [] then None
    else if Upper(name) == Upper(names[0]) then Some(names[0])
    else Lookup(names[1..], name)
  }

  /** `get_real_remote_oj`: the canonical name of the judge called `name`, if it is supported. */
  function RealRemoteOj(name: string): (r: Option<string>)
    ensures r.Some? ==> r.value in Supports && Upper(r.value) == Upper(name)
    ensures r.None? <==> forall s :: s in Supports ==> Upper(s) != Upper(name)
  {
    Lookup(Supports, name)
  }

  /** `get_real_remote_oj`: the linear search over `supports`, returning at the first match. */
  method GetRealRemoteOj(name: string) returns (r: Option<string>)
    ensures r == RealRemoteOj(name)
    ensures r.Some? ==> r.value in Supports && Upper(r.value) == Upper(name)
  {
    var i := 0;
    while i < |Supports|
      invariant 0 <= i <= |Supports|
      invariant Lookup(Supports, name) == Lookup(Supports[i..], name)
    {
      if Upper(name) == Upper(Supports[i]) {
        return Some(Supports[i]);
      }
      assert Supports[i..][1..] == Supports[i + 1..];
      i := i + 1;
    }
    return None;
  }

  /** No two names in the list are equal ignoring case. */
  predicate UpperDistinct(names: seq<string>) {
    forall i, j :: 0 <= i < j < |names| ==> Upper(names[i]) != Upper(names[j])
  }

  lemma SupportsUpperDistinct()
    ensures UpperDistinct(Supports)
  {
    forall i, j | 0 <= i < j < |Supports|
      ensures Upper(Supports[i]) != Upper(Supports[j])
    {
      var a, b := Supports[i], Supports[j];
      if |a| == |b| {
        assert Upper(a)[0] == UpperChar(a[0]) && Upper(b)[0] == UpperChar(b[0]);
      }
    }
  }

  /** When the names are distinct ignoring case, any casing of a listed name finds exactly that name. */
  lemma {:induction false} LookupComplete(names: seq<string>, name: string, i: nat)
    requires UpperDistinct(names) && i < |names| && Upper(name) == Upper(names[i])
    ensures Lookup(names, name) == Some(names[i])
  {
    if i > 0 {
      assert Upper(names[0]) != Upper(names[i]);
      LookupComplete(names[1..], name, i - 1);
    }
  }

  /** Every casing of a supported name resolves to that name: "zoj", "Zoj" and "ZOJ" all give "ZOJ". */
  lemma RealRemoteOjComplete(name: string, s: string)
    requires s in Supports && Upper(name) == Upper(s)
    ensures RealRemoteOj(name) == Some(s)
  {
    SupportsUpperDistinct();
    var i :| 0 <= i < |Supports| && Supports[i] == s;
    LookupComplete(Supports, name, i);
  }

  /** A canonical name resolves to itself, so resolving twice is resolving once. */
  lemma RealRemoteOjIdempotent(name: string)
    requires RealRemoteOj(name).Some?
    ensures RealRemoteOj(RealRemoteOj(name).value) == RealRemoteOj(name)
  {
    var s := RealRemoteOj(name).value;
    RealRemoteOjComplete(s, s);
  }

  /** `is_support`: the canonical name found is a non-empty (true) string. */
  predicate IsSupport(name: string) {
    Truthy(RealRemoteOj(name))
  }

  lemma IsSupportIffResolved(name: string)
    ensures IsSupport(name) <==> RealRemoteOj(name).Some?
  {
    var r := RealRemoteOj(name);
    if r.Some? {
      assert forall s :: s in Supports ==> s != [];
    }
  }

  /**
   * `get_supports`: the list itself. The names in it are exactly the names
   * that resolve to themselves, each is supported, and no two differ only in
   * case.
   */
  function GetSupports(): (r: seq<string>)
    ensures forall s :: s in r <==> RealRemoteOj(s) == Some(s)
    ensures forall s :: s in r ==> IsSupport(s)
    ensures UpperDistinct(r)
  {
    SupportsUpperDistinct();
    forall s | s in Supports
      ensures RealRemoteOj(s) == Some(s) && IsSupport(s)
    {
      RealRemoteOjComplete(s, s);
      IsSupportIffResolved(s);
    }
    Supports
  }

  // ---------------------------------------------------------------- the builder

  /** `build_oj` yields an adapter for a true (present, non-empty) name whose module exists. */
  predicate Builds(name: Option<string>, registry: set<string>) {
    Truthy(name) && name.value in registry
  }

  /** `OJBuilder.build_oj`: None for an absent or empty name and for a name with no module; never raises. */
  method BuildOj(name: Option<string>, registry: set<string>, script: seq<Reply>) returns (oj: ZOJ?)
    requires registry <= {"ZOJ"}
    ensures oj != null ==> name == Some("ZOJ")
    ensures oj == null <==> !Builds(name, registry)
    ensures oj != null ==> fresh(oj) && fresh(oj.req) && oj.req.State() == Net(map[], script, [])
  {
    if Truthy(name) && name.value in registry {
      oj := new ZOJ(script);
    } else {
      oj := null;
    }
  }

  // ---------------------------------------------------------------- the controller

  /** What `get_problem` answers when no adapter was built. */
  function NoJudgeProblem(originName: string, pid: string): (p: Problem)
    ensures p.status == ProblemOjNotExist && p.remoteOj == Some(originName) && p.remoteId == Some(pid)
    ensures p.remoteUrl.None? && p.title.None? && p.html.None?
    ensures p.timeLimit.None? && p.memoryLimit.None? && p.specialJudge.None?
  {
    BlankProblem(ProblemOjNotExist).(remoteOj := Some(originName), remoteId := Some(pid))
  }

  class Controller {
    /** The adapter, null when the name did not resolve or has no module; fixed at construction. */
    const oj: ZOJ?
    /** The name the caller gave, as given. */
    const originName: string
    /** The canonical name the given one resolved to, from which the adapter was built. */
    ghost const remoteOj: Option<string>

    constructor (ojName: string, registry: set<string>, script: seq<Reply>)
      requires registry <= {"ZOJ"}
      ensures originName == ojName && remoteOj == RealRemoteOj(ojName)
      ensures oj != null ==> remoteOj == Some("ZOJ")
      ensures oj == null <==> !Builds(RealRemoteOj(ojName), registry)
      ensures oj != null ==> fresh(oj) && fresh(oj.req) && oj.req.State() == Net(map[], script, [])
    {
      var remote := GetRealRemoteOj(ojName);
      var built := BuildOj(remote, registry, script);
      oj := built;
      originName := ojName;
      remoteOj := remote;
    }

    function GetHomePageUrl(): (r: Option<string>)
      ensures r.None? <==> oj == null
    {
      if oj == null then None else Some(HomePageUrl)
    }

    method GetProblem(pid: string, account: Account) returns (o: Outcome<Problem>)
      modifies if oj == null then {} else {oj.req}
      ensures oj == null ==> o == Ok(NoJudgeProblem(originName, pid))
      ensures oj != null ==> (o, oj.req.State()) == GetProblemOn(old(oj.req.State()), pid)
    {
      if oj == null {
        return Ok(NoJudgeProblem(originName, pid));
      }
      o := oj.GetProblem(pid);
    }

    method SubmitCode(pid: string, account: Account, code: string, language: string) returns (o: Outcome<Option<bool>>)
      modifies if oj == null then {} else {oj.req}
      ensures oj == null ==> o == Ok(None)
      ensures oj != null ==> var (r, n) := SubmitCodeOn(old(oj.req.State()), account, pid, language, code);
        oj.req.State() == n && o == (if r.Raised? then Raised(r.exception) else Ok(Some(r.value)))
    {
      if oj == null {
        return Ok(None);
      }
      var r := oj.SubmitCode(account, pid, language, code);
      o := if r.Raised? then Raised(r.exception) else Ok(Some(r.value));
    }

    method GetResult(account: Account, pid: string) returns (r: Option<Result>)
      modifies if oj == null then {} else {oj.req}
      ensures oj == null ==> r.None?
      ensures oj != null ==> (r, oj.req.State()) == (Some(GetResultOn(old(oj.req.State()), account, pid).0),
                                                     GetResultOn(old(oj.req.State()), account, pid).1)
    {
      if oj == null {
        return None;
      }
      var result := oj.GetResult(account, pid);
      r := Some(result);
    }

    method GetResultByRidAndPid(rid: string, pid: string) returns (r: Option<Result>)
      modifies if oj == null then {} else {oj.req}
      ensures oj == null ==> r.None?
      ensures oj != null ==> (r, oj.req.State()) == (Some(GetResultByRidAndPidOn(old(oj.req.State()), rid, pid).0),
                                                     GetResultByRidAndPidOn(old(oj.req.State()), rid, pid).1)
    {
      if oj == null {
        return None;
      }
      var result := oj.GetResultByRidAndPid(rid, pid);
      r := Some(result);
    }

    /** The adapter's None (no sign-in) and the controller's None (no adapter) are the same value. */
    method FindLanguage(account: Account) returns (o: Outcome<Option<map<Option<string>, Option<string>>>>)
      modifies if oj == null then {} else {oj.req}
      ensures oj == null ==> o == Ok(None)
      ensures oj != null ==> (o, oj.req.State()) == FindLanguageOn(old(oj.req.State()), account)
    {
      if oj == null {
        return Ok(None);
      }
      o := oj.FindLanguage(account);
    }

    method CheckStatus() returns (o: Outcome<Option<bool>>)
      modifies if oj == null then {} else {oj.req}
      ensures oj == null ==> o == Ok(None)
      ensures oj != null ==> var (r, n) := CheckStatusOn(old(oj.req.State()));
        oj.req.State() == n && o == (if r.Raised? then Raised(r.exception) else Ok(Some(r.value)))
    {
      if oj == null {
        return Ok(None);
      }
      var r := oj.CheckStatus();
      o := if r.Raised? then Raised(r.exception) else Ok(Some(r.value));
    }

    function IsWaitingForJudge(verdict: string): (r: Option<bool>)
      ensures r.None? <==> oj == null
    {
      if oj == null then None else Some(Zoj.IsWaitingForJudge(verdict))
    }

    function IsAccepted(verdict: string): (r: Option<bool>)
      ensures r.None? <==> oj == null
    {
      if oj == null then None else Some(Zoj.IsAccepted(verdict))
    }

    function IsRunning(verdict: string): (r: Option<bool>)
      ensures r.None? <==> oj == null
    {
      if oj == null then None else Some(Zoj.IsRunning(verdict))
    }

    function IsCompileError(verdict: string): (r: Option<bool>)
      ensures r.None? <==> oj == null
    {
      if oj == null then None else Some(Zoj.IsCompileError(verdict))
    }
  }

  /**
   * A controller built for an unsupported name, or for a supported name with
   * no module, has no adapter; its verdict queries all answer None.
   */
  lemma NoAdapterAnswersNone(c: Controller, verdict: string)
    requires c.oj == null
    ensures c.GetHomePageUrl().None? && c.IsWaitingForJudge(verdict).None? && c.IsAccepted(verdict).None?
            && c.IsRunning(verdict).None? && c.IsCompileError(verdict).None?
  {
  }

  /**
   * With ZOJ's adapter, each verdict query answers what the adapter answers;
   * waiting for the judge and running then agree, and no verdict is in two
   * classes.
   */
  lemma ControllerVerdicts(c: Controller, verdict: string)
    requires c.oj != null && c.remoteOj == Some("ZOJ")
    ensures c.GetHomePageUrl() == Some(HomePageUrl)
    ensures c.IsAccepted(verdict) == Some(verdict == "Accepted")
    ensures c.IsCompileError(verdict) == Some(verdict == "Compilation Error")
    ensures c.IsRunning(verdict) == Some(verdict == "Queuing" || verdict == "Compiling")
    ensures c.IsWaitingForJudge(verdict) == c.IsRunning(verdict)
    ensures !(c.IsAccepted(verdict) == Some(true) && c.IsRunning(verdict) == Some(true))
    ensures !(c.IsAccepted(verdict) == Some(true) && c.IsCompileError(verdict) == Some(true))
  {
    VerdictsDisjoint(verdict);
  }
}
