/**
 * `CookieRetryHandler` (cookie-retry-handler.js): up to five login attempts,
 * each previewing a cookie from the backend, injecting it through the
 * extension and checking the Netflix tab; a cookie that fails is reported
 * dead and excluded from later previews, and only a cookie that works is
 * confirmed.
 *
 * The backend's preview answer and everything the extension answers during
 * one attempt are parameters, indexed by the attempt number.
 */
module CookieRetry {
  import opened Basics
  import opened Strings

  const MaxRetries := 5
  const NoCookieAvailable := "Không có cookie khả dụng"
  const AllFailed := "Đã thử tất cả cookie nhưng không thành công"
  const InjectorMissing := "injectCookieViaExtension function not available"
  const InjectionFailedText := "Extension injection failed"

  /** `a || b` on text. */
  function OrText(a: string, b: string): (r: string)
    ensures b != "" ==> r != ""
  {
    if a != "" then a else b
  }

  datatype Outcome<T> = Done(value: T) | Threw(message: string)

  // ---------------------------------------------------------------------
  // getCookieFromBackend

  /** The query parameters of a preview request. */
  datatype PreviewQuery = PreviewQuery(skipCurrent: bool, excludeIds: Option<seq<string>>)

  /** `skipCurrent` from the second attempt on; `excludeIds` once some cookie has failed. */
  function QueryFor(currentRetry: nat, used: seq<string>): (q: PreviewQuery)
    ensures q.skipCurrent <==> currentRetry > 1
    ensures q.excludeIds.Some? <==> |used| > 0
    ensures q.excludeIds.Some? ==> q.excludeIds.value == used
  {
    PreviewQuery(currentRetry > 1, if |used| > 0 then Some(used) else None)
  }

  datatype RawCookie = RawCookie(id: string, name: string, value: string, domain: string, path: string,
                                 secure: bool, httpOnly: bool)

  /** What the preview request yields: a network failure, an HTTP error with its body's `error`, or a body. */
  datatype PreviewReply =
    | NetworkError(message: string)
    | HttpError(status: nat, error: string)
    | Body(cookie: Option<RawCookie>, cookieNumber: int)

  /** `cookieData`. */
  datatype CookieData = CookieData(cookieId: string, cookieNumber: int, name: string, value: string,
                                   domain: string, path: string, secure: bool, httpOnly: bool)

  /** The result of `getCookieFromBackend`: a cookie, `null`, or the error it throws. */
  function PreviewResult(reply: PreviewReply): (r: Outcome<Option<CookieData>>)
    ensures r.Done? && r.value.Some? ==> r.value.value.cookieId != ""
    ensures r.Threw? <==> !reply.Body?
  {
    match reply
    case NetworkError(m) => Threw(m)
    case HttpError(status, error) => Threw(OrText(error, "HTTP " + NatToString(status)))
    case Body(None, _) => Done(None)
    case Body(Some(c), number) =>
      Done(Some(CookieData(OrText(c.id, "unknown"), number, c.name, c.value, c.domain, c.path, c.secure, c.httpOnly)))
  }

  // ---------------------------------------------------------------------
  // injectCookieAndCheck / checkNetflixLoginStatus

  /** A check's verdict: logged in, or why not. */
  datatype LoginResult = LoggedIn | NotLoggedIn(errorCode: string, error: Option<string>)

  datatype InjectResponse = InjectResponse(success: bool, error: string)
  /** `window.injectCookieViaExtension`: missing, throwing, or answering (possibly nothing). */
  datatype InjectAnswer = NoInjector | InjectorThrows(message: string) | InjectReply(response: Option<InjectResponse>)

  datatype StatusResponse = StatusResponse(success: bool, loginStatus: string, errorCode: string)
  /** A `checkNetflixStatus` message to the extension. */
  datatype StatusAnswer = StatusThrows(message: string) | StatusReply(response: Option<StatusResponse>)
  /** A `refreshNetflixTab` message to the extension. */
  datatype RefreshAnswer = RefreshThrows(message: string) | RefreshReply(success: bool)

  /** What the page and the extension answer during one attempt. */
  datatype CheckEnv = CheckEnv(hasExtension: bool, extensionId: string, inject: InjectAnswer,
                               status: StatusAnswer, refresh: RefreshAnswer, recheck: StatusAnswer)

  /** `refreshAndRecheck`. */
  function RefreshAndRecheck(env: CheckEnv): (r: LoginResult)
    ensures r.NotLoggedIn? ==> r.errorCode != ""
  {
    match env.refresh
    case RefreshThrows(m) => NotLoggedIn("REFRESH_ERROR", Some(m))
    case RefreshReply(false) => NotLoggedIn("REFRESH_FAILED", None)
    case RefreshReply(true) =>
      match env.recheck
      case StatusThrows(m) => NotLoggedIn("REFRESH_ERROR", Some(m))
      case StatusReply(Some(resp)) =>
        if resp.success && resp.loginStatus == "success" then LoggedIn
        else NotLoggedIn(OrText(resp.errorCode, "STILL_FAILED_AFTER_REFRESH"), None)
      case StatusReply(None) => NotLoggedIn("STILL_FAILED_AFTER_REFRESH", None)
  }

  /** `checkNetflixLoginStatus`. */
  function CheckNetflixLoginStatus(env: CheckEnv): (r: LoginResult)
    ensures r.NotLoggedIn? ==> r.errorCode != ""
    ensures !env.hasExtension || env.extensionId == "" ==> r == NotLoggedIn("NO_EXTENSION", None)
    ensures env.hasExtension && env.extensionId != "" && env.status.StatusReply?
      && (env.status.response.None? || !env.status.response.value.success)
      ==> r == NotLoggedIn("NO_RESPONSE", None)
    ensures env.hasExtension && env.extensionId != "" && env.status.StatusThrows?
      ==> r == NotLoggedIn("CHECK_FAILED", Some(env.status.message))
  {
    if !env.hasExtension || env.extensionId == "" then NotLoggedIn("NO_EXTENSION", None)
    else match env.status
      case StatusThrows(m) => NotLoggedIn("CHECK_FAILED", Some(m))
      case StatusReply(None) => NotLoggedIn("NO_RESPONSE", None)
      case StatusReply(Some(resp)) =>
        if !resp.success then NotLoggedIn("NO_RESPONSE", None)
        else if resp.loginStatus == "success" then LoggedIn
        else if resp.loginStatus == "error" then
          (if RefreshAndRecheck(env).LoggedIn? then LoggedIn
           else NotLoggedIn(OrText(resp.errorCode, "NETFLIX_ERROR"), None))
        else NotLoggedIn("NOT_BROWSING", None)
  }

  /** The classification of a reachable extension's status answer. */
  lemma StatusClassification(env: CheckEnv, resp: StatusResponse)
    requires env.hasExtension && env.extensionId != "" && env.status == StatusReply(Some(resp)) && resp.success
    ensures resp.loginStatus == "success" ==> CheckNetflixLoginStatus(env) == LoggedIn
    ensures resp.loginStatus == "error" ==>
      (CheckNetflixLoginStatus(env).LoggedIn? <==> RefreshAndRecheck(env).LoggedIn?)
    ensures resp.loginStatus == "error" && !RefreshAndRecheck(env).LoggedIn? ==>
      CheckNetflixLoginStatus(env).errorCode == OrText(resp.errorCode, "NETFLIX_ERROR")
    ensures resp.loginStatus != "success" && resp.loginStatus != "error" ==>
      CheckNetflixLoginStatus(env) == NotLoggedIn("NOT_BROWSING", None)
  {
  }

  /**
   * `injectCookieAndCheck`: every injection failure is `INJECTION_FAILED`;
   * otherwise the tab check decides. A refusal without an error text gets
   * the fallback message; an injector that throws passes its own message on,
   * empty or not.
   */
  function InjectCookieAndCheck(env: CheckEnv): (r: LoginResult)
    ensures r.NotLoggedIn? ==> r.errorCode != ""
    ensures env.inject.InjectReply? && env.inject.response.Some? && env.inject.response.value.success
      ==> r == CheckNetflixLoginStatus(env)
    ensures !(env.inject.InjectReply? && env.inject.response.Some? && env.inject.response.value.success)
      ==> r.NotLoggedIn? && r.errorCode == "INJECTION_FAILED" && r.error.Some?
    ensures env.inject.InjectorThrows? ==> r.error == Some(env.inject.message)
    ensures !env.inject.InjectorThrows? && !(env.inject.InjectReply? && env.inject.response.Some? && env.inject.response.value.success)
      ==> r.error.Some? && r.error.value != ""
  {
    match env.inject
    case NoInjector => NotLoggedIn("INJECTION_FAILED", Some(InjectorMissing))
    case InjectorThrows(m) => NotLoggedIn("INJECTION_FAILED", Some(m))
    case InjectReply(None) => NotLoggedIn("INJECTION_FAILED", Some(InjectionFailedText))
    case InjectReply(Some(resp)) =>
      if !resp.success then NotLoggedIn("INJECTION_FAILED", Some(OrText(resp.error, InjectionFailedText)))
      else CheckNetflixLoginStatus(env)
  }

  // ---------------------------------------------------------------------
  // attemptLogin

  /** The backend requests one login makes, in order. */
  datatype Call = Preview(query: PreviewQuery) | ReportDead(cookieId: string, errorCode: string) | Confirm(cookieId: string)

  datatype LoginOutcome = Succeeded(cookie: CookieData) | Failed(error: string)

  /** `usedCookies.add(id)` on a set kept in insertion order. */
  function AddId(used: seq<string>, id: string): (r: seq<string>)
    ensures id in r && forall x :: x in used ==> x in r
    ensures forall x :: x in r ==> x in used || x == id
  {
    if id in used then used else used + [id]
  }

  /** What a login leaves: its result, its requests, and the handler's counter and exclusion list. */
  datatype Trace = Trace(result: LoginOutcome, calls: seq<Call>, retry: nat, used: seq<string>)

  function Prepend(calls: seq<Call>, t: Trace): (r: Trace)
    ensures r.result == t.result && r.retry == t.retry && r.used == t.used
    ensures r.calls == calls + t.calls
  {
    t.(calls := calls + t.calls)
  }

  /** How one attempt ends: no cookie (the message it would fail with), a cookie that works, or one that fails. */
  datatype Verdict = NoCookie(message: string) | Works(cookie: CookieData) | Fails(cookie: CookieData, code: string)

  /** Attempt `n` with preview query `q`: fetch a cookie, then inject and check it. */
  function AttemptVerdict(n: nat, q: PreviewQuery, backend: (nat, PreviewQuery) -> PreviewReply,
                          env: (nat, CookieData) -> CheckEnv): (v: Verdict)
    ensures v.Works? ==> PreviewResult(backend(n, q)) == Done(Some(v.cookie)) && InjectCookieAndCheck(env(n, v.cookie)) == LoggedIn
    ensures v.Fails? ==>
      && PreviewResult(backend(n, q)) == Done(Some(v.cookie))
      && InjectCookieAndCheck(env(n, v.cookie)).NotLoggedIn?
      && v.code == InjectCookieAndCheck(env(n, v.cookie)).errorCode && v.code != ""
    ensures v.NoCookie? <==> PreviewResult(backend(n, q)).Threw? || PreviewResult(backend(n, q)) == Done(None)
    ensures PreviewResult(backend(n, q)) == Done(None) ==> v == NoCookie(NoCookieAvailable)
    ensures PreviewResult(backend(n, q)).Threw? ==> v == NoCookie(PreviewResult(backend(n, q)).message)
  {
    match PreviewResult(backend(n, q))
    case Threw(m) => NoCookie(m)
    case Done(None) => NoCookie(NoCookieAvailable)
    case Done(Some(c)) =>
      var check := InjectCookieAndCheck(env(n, c));
      if check.LoggedIn? then Works(c) else Fails(c, OrText(check.errorCode, "UNKNOWN"))
  }

  /** The verdict of attempt `n` given its preview query. */
  type Attempts = (nat, PreviewQuery) -> Verdict

  /** `attempt` gives the verdict of every attempt against `backend` and `env`. */
  ghost predicate Describes(attempt: Attempts, backend: (nat, PreviewQuery) -> PreviewReply, env: (nat, CookieData) -> CheckEnv)
  {
    forall n, q {:trigger AttemptVerdict(n, q, backend, env)} :: attempt(n, q) == AttemptVerdict(n, q, backend, env)
  }

  /** The verdicts a backend and an extension give. */
  function Verdicts(backend: (nat, PreviewQuery) -> PreviewReply, env: (nat, CookieData) -> CheckEnv): (a: Attempts)
    ensures Describes(a, backend, env)
    ensures CodedFailures(a)
  {
    (n: nat, q: PreviewQuery) => AttemptVerdict(n, q, backend, env)
  }

  /**
   * The attempts from counter `retry` on: the loop of `attemptLogin` as a
   * function. An attempt without a cookie continues silently unless it was
   * the last; a cookie that fails is reported and excluded; one that works
   * is confirmed and returned.
   */
  function Run(retry: nat, used: seq<string>, max: nat,
               attempt: Attempts): Trace
    decreases max - retry
  {
    if retry >= max then Trace(Failed(AllFailed), [], retry, used)
    else
      var n := retry + 1;
      var q := QueryFor(n, used);
      var v := attempt(n, q);
      if v.Works? then Trace(Succeeded(v.cookie), [Preview(q), Confirm(v.cookie.cookieId)], n, used)
      else if v.Fails? then
        Prepend([Preview(q), ReportDead(v.cookie.cookieId, v.code)], Run(n, AddId(used, v.cookie.cookieId), max, attempt))
      else if n >= max then Trace(Failed(v.message), [Preview(q)], n, used)
      else Prepend([Preview(q)], Run(n, used, max, attempt))
  }

  /** The preview queries among the requests. */
  function Queries(calls: seq<Call>): seq<PreviewQuery>
    decreases |calls|
  {
    if |calls| == 0 then [] else (if calls[0].Preview? then [calls[0].query] else []) + Queries(calls[1..])
  }

  lemma {:induction false} QueriesAppend(a: seq<Call>, b: seq<Call>)
    ensures Queries(a + b) == Queries(a) + Queries(b)
    decreases |a|
  {
    if |a| > 0 {
      assert (a + b)[0] == a[0] && (a + b)[1..] == a[1..] + b;
      QueriesAppend(a[1..], b);
    } else {
      assert a + b == b;
    }
  }

  /** The queries of one attempt's requests followed by the rest of the run. */
  lemma QueriesOfAttempt(q: PreviewQuery, other: seq<Call>, rest: seq<Call>)
    requires |other| <= 1 && forall k :: 0 <= k < |other| ==> !other[k].Preview?
    ensures Queries([Preview(q)] + other + rest) == [q] + Queries(rest)
  {
    QueriesAppend([Preview(q)] + other, rest);
    if |other| == 1 {
      assert ([Preview(q)] + other)[1..] == other && other[1..] == [];
    } else {
      assert [Preview(q)] + other == [Preview(q)];
    }
    assert Queries([Preview(q)] + other) == [q];
  }

  /** At most `max` previews are requested, one per attempt. */
  lemma {:induction false} AttemptsBounded(retry: nat, used: seq<string>, max: nat,
                                           attempt: Attempts)
    ensures |Queries(Run(retry, used, max, attempt).calls)| <= if retry >= max then 0 else max - retry
    decreases max - retry
  {
    if retry < max {
      var n := retry + 1;
      var q := QueryFor(n, used);
      var v := attempt(n, q);
      if v.Works? {
        QueriesOfAttempt(q, [Confirm(v.cookie.cookieId)], []);
        assert [Preview(q)] + [Confirm(v.cookie.cookieId)] + [] == [Preview(q), Confirm(v.cookie.cookieId)];
      } else if v.Fails? {
        var used' := AddId(used, v.cookie.cookieId);
        AttemptsBounded(n, used', max, attempt);
        var dead := ReportDead(v.cookie.cookieId, v.code);
        QueriesOfAttempt(q, [dead], Run(n, used', max, attempt).calls);
        assert [Preview(q)] + [dead] == [Preview(q), dead];
      } else if n >= max {
        QueriesOfAttempt(q, [], []);
        assert [Preview(q)] + [] + [] == [Preview(q)];
      } else {
        AttemptsBounded(n, used, max, attempt);
        QueriesOfAttempt(q, [], Run(n, used, max, attempt).calls);
        assert [Preview(q)] + [] == [Preview(q)];
      }
    }
  }

  /** The `k`-th query, sent on attempt `retry + k + 1`, skips the current cookie exactly from the second attempt on. */
  predicate SkipAfter(qs: seq<PreviewQuery>, retry: nat)
  {
    forall k :: 0 <= k < |qs| ==> (qs[k].skipCurrent <==> retry + k >= 1)
  }

  /** `skipCurrent` is asked for on every attempt but the first. */
  lemma {:induction false} SkipCurrentAfterFirst(retry: nat, used: seq<string>, max: nat,
                                                 attempt: Attempts)
    ensures SkipAfter(Queries(Run(retry, used, max, attempt).calls), retry)
    decreases max - retry
  {
    if retry < max {
      var n := retry + 1;
      var q := QueryFor(n, used);
      var v := attempt(n, q);
      if v.Works? {
        QueriesOfAttempt(q, [Confirm(v.cookie.cookieId)], []);
        assert [Preview(q)] + [Confirm(v.cookie.cookieId)] + [] == [Preview(q), Confirm(v.cookie.cookieId)];
      } else if v.Fails? {
        var used' := AddId(used, v.cookie.cookieId);
        SkipCurrentAfterFirst(n, used', max, attempt);
        var dead := ReportDead(v.cookie.cookieId, v.code);
        QueriesOfAttempt(q, [dead], Run(n, used', max, attempt).calls);
        assert [Preview(q)] + [dead] == [Preview(q), dead];
      } else if n >= max {
        QueriesOfAttempt(q, [], []);
        assert [Preview(q)] + [] + [] == [Preview(q)];
      } else {
        SkipCurrentAfterFirst(n, used, max, attempt);
        QueriesOfAttempt(q, [], Run(n, used, max, attempt).calls);
        assert [Preview(q)] + [] == [Preview(q)];
      }
    }
  }

  /** The ids a query excludes. */
  function Excluded(q: PreviewQuery): seq<string>
  {
    if q.excludeIds.Some? then q.excludeIds.value else []
  }

  /** Every preview excludes every cookie already excluded when the run starts. */
  lemma {:induction false} ExclusionsKept(retry: nat, used: seq<string>, max: nat,
                                          attempt: Attempts)
    ensures forall call, id :: call in Run(retry, used, max, attempt).calls && call.Preview? && id in used ==>
      id in Excluded(call.query)
    decreases max - retry
  {
    if retry < max {
      var n := retry + 1;
      var v := attempt(n, QueryFor(n, used));
      if v.Fails? {
        ExclusionsKept(n, AddId(used, v.cookie.cookieId), max, attempt);
      } else if !v.Works? && n < max {
        ExclusionsKept(n, used, max, attempt);
      }
    }
  }

  /** Every cookie reported dead is excluded by every later preview request. */
  predicate DeadExcludedLater(calls: seq<Call>)
  {
    forall i, j :: 0 <= i < j < |calls| && calls[i].ReportDead? && calls[j].Preview? ==>
      calls[i].cookieId in Excluded(calls[j].query)
  }

  /** A cookie reported dead is excluded from every later preview. */
  lemma {:induction false} DeadCookieExcluded(retry: nat, used: seq<string>, max: nat,
                                              attempt: Attempts)
    ensures DeadExcludedLater(Run(retry, used, max, attempt).calls)
    decreases max - retry
  {
    var calls := Run(retry, used, max, attempt).calls;
    if retry < max {
      var n := retry + 1;
      var q := QueryFor(n, used);
      var v := attempt(n, q);
      if v.Fails? {
        var used' := AddId(used, v.cookie.cookieId);
        var rest := Run(n, used', max, attempt).calls;
        assert calls == [Preview(q), ReportDead(v.cookie.cookieId, v.code)] + rest;
        DeadCookieExcluded(n, used', max, attempt);
        ExclusionsKept(n, used', max, attempt);
        forall i, j | 0 <= i < j < |calls| && calls[i].ReportDead? && calls[j].Preview?
          ensures calls[i].cookieId in Excluded(calls[j].query)
        {
          assert calls[j] == rest[j - 2] && calls[j] in rest;
          if i >= 2 { assert calls[i] == rest[i - 2]; }
        }
      } else if !v.Works? && n < max {
        var rest := Run(n, used, max, attempt).calls;
        assert calls == [Preview(q)] + rest;
        DeadCookieExcluded(n, used, max, attempt);
        forall i, j | 0 <= i < j < |calls| && calls[i].ReportDead? && calls[j].Preview?
          ensures calls[i].cookieId in Excluded(calls[j].query)
        {
          assert calls[i] == rest[i - 1] && calls[j] == rest[j - 1];
        }
      }
    }
  }

  /** No request confirms a cookie. */
  predicate NoConfirm(calls: seq<Call>)
  {
    forall k :: 0 <= k < |calls| ==> !calls[k].Confirm?
  }

  /**
   * A successful login ends with the preview of the cookie whose attempt
   * worked and then that cookie's confirmation, and confirms nothing
   * before; a failed one confirms nothing.
   */
  predicate ConfirmsOnlySuccess(t: Trace, attempt: Attempts)
  {
    if t.result.Succeeded? then
      && |t.calls| >= 2 && t.calls[|t.calls| - 1] == Confirm(t.result.cookie.cookieId)
      && NoConfirm(t.calls[..|t.calls| - 1])
      && t.calls[|t.calls| - 2].Preview?
      && attempt(t.retry, t.calls[|t.calls| - 2].query) == Works(t.result.cookie)
    else NoConfirm(t.calls)
  }

  /**
   * Success comes only straight after a check that succeeded, for the
   * cookie that was checked, and that cookie alone is confirmed, as the
   * very last request; a failed login confirms nothing.
   */
  lemma {:induction false} SuccessOnlyAfterCheck(retry: nat, used: seq<string>, max: nat,
                                                 attempt: Attempts)
    ensures ConfirmsOnlySuccess(Run(retry, used, max, attempt), attempt)
    decreases max - retry
  {
    if retry < max {
      var n := retry + 1;
      var q := QueryFor(n, used);
      var v := attempt(n, q);
      var t := Run(retry, used, max, attempt);
      if v.Works? {
        assert t.calls[..|t.calls| - 1] == [Preview(q)];
      } else if v.Fails? {
        var rest := Run(n, AddId(used, v.cookie.cookieId), max, attempt);
        SuccessOnlyAfterCheck(n, AddId(used, v.cookie.cookieId), max, attempt);
        ConfirmsAfter([Preview(q), ReportDead(v.cookie.cookieId, v.code)], rest, t, attempt);
      } else if n < max {
        var rest := Run(n, used, max, attempt);
        SuccessOnlyAfterCheck(n, used, max, attempt);
        ConfirmsAfter([Preview(q)], rest, t, attempt);
      }
    }
  }

  /** One attempt of a run, case by case. */
  lemma RunStep(retry: nat, used: seq<string>, max: nat, attempt: Attempts, q: PreviewQuery, v: Verdict)
    requires retry < max && q == QueryFor(retry + 1, used) && v == attempt(retry + 1, q)
    ensures v.Works? ==>
      Run(retry, used, max, attempt) == Trace(Succeeded(v.cookie), [Preview(q), Confirm(v.cookie.cookieId)], retry + 1, used)
    ensures v.Fails? ==>
      Run(retry, used, max, attempt)
      == Prepend([Preview(q), ReportDead(v.cookie.cookieId, v.code)], Run(retry + 1, AddId(used, v.cookie.cookieId), max, attempt))
    ensures v.NoCookie? && retry + 1 >= max ==>
      Run(retry, used, max, attempt) == Trace(Failed(v.message), [Preview(q)], retry + 1, used)
    ensures v.NoCookie? && retry + 1 < max ==>
      Run(retry, used, max, attempt) == Prepend([Preview(q)], Run(retry + 1, used, max, attempt))
  {
  }

  lemma PrependTwice(a: seq<Call>, b: seq<Call>, t: Trace)
    ensures Prepend(a, Prepend(b, t)) == Prepend(a + b, t)
  {
    assert a + (b + t.calls) == (a + b) + t.calls;
  }

  /** Requests that confirm nothing, put before a run, keep what the run says about confirmations. */
  lemma ConfirmsAfter(prefix: seq<Call>, rest: Trace, t: Trace, attempt: Attempts)
    requires NoConfirm(prefix) && ConfirmsOnlySuccess(rest, attempt)
    requires t == Prepend(prefix, rest)
    ensures ConfirmsOnlySuccess(t, attempt)
  {
    if t.result.Succeeded? {
      assert t.calls[..|t.calls| - 1] == prefix + rest.calls[..|rest.calls| - 1];
    }
  }

  /** Every failing attempt names a code. */
  ghost predicate CodedFailures(attempt: Attempts)
  {
    forall n, q :: attempt(n, q).Fails? ==> attempt(n, q).code != ""
  }

  /** Every report names the check's own error code, never the `UNKNOWN` fallback. */
  lemma {:induction false} ReportsCarryCode(retry: nat, used: seq<string>, max: nat,
                                            attempt: Attempts)
    requires CodedFailures(attempt)
    ensures forall call :: call in Run(retry, used, max, attempt).calls && call.ReportDead? ==>
      call.errorCode != ""
    decreases max - retry
  {
    if retry < max {
      var n := retry + 1;
      var v := attempt(n, QueryFor(n, used));
      if v.Fails? {
        ReportsCarryCode(n, AddId(used, v.cookie.cookieId), max, attempt);
      } else if !v.Works? && n < max {
        ReportsCarryCode(n, used, max, attempt);
      }
    }
  }

  class CookieRetryHandler {
    const maxRetries: nat
    var currentRetry: nat
    var usedCookies: seq<string>

    constructor()
      ensures maxRetries == MaxRetries && currentRetry == 0 && usedCookies == []
    {
      maxRetries := MaxRetries;
      currentRetry := 0;
      usedCookies := [];
    }

    /** `getCookieFromBackend`: the preview query for the current attempt and what the backend made of it. */
    method GetCookieFromBackend(backend: (nat, PreviewQuery) -> PreviewReply)
      returns (query: PreviewQuery, result: Outcome<Option<CookieData>>)
      ensures query == QueryFor(currentRetry, usedCookies)
      ensures result == PreviewResult(backend(currentRetry, query))
    {
      var skip := false;
      if currentRetry > 1 {
        skip := true;
      }
      var exclude: Option<seq<string>> := None;
      if |usedCookies| > 0 {
        exclude := Some(usedCookies);
      }
      query := PreviewQuery(skip, exclude);
      result := PreviewResult(backend(currentRetry, query));
    }

    /**
     * One attempt's work before its outcome is reported: preview a cookie,
     * then, if there is one, inject it and check the tab.
     */
    method FetchAndCheck(backend: (nat, PreviewQuery) -> PreviewReply, env: (nat, CookieData) -> CheckEnv)
      returns (query: PreviewQuery, v: Verdict)
      ensures query == QueryFor(currentRetry, usedCookies)
      ensures v == AttemptVerdict(currentRetry, query, backend, env)
    {
      var fetched;
      query, fetched := GetCookieFromBackend(backend);
      if fetched.Threw? {
        v := NoCookie(fetched.message);
      } else if fetched.value.None? {
        v := NoCookie(NoCookieAvailable);
      } else {
        var cookieData := fetched.value.value;
        var check := InjectCookieAndCheck(env(currentRetry, cookieData));
        if check.LoggedIn? {
          v := Works(cookieData);
        } else {
          v := Fails(cookieData, OrText(check.errorCode, "UNKNOWN"));
        }
      }
    }

    /** `attemptLogin`. */
    method AttemptLogin(backend: (nat, PreviewQuery) -> PreviewReply, env: (nat, CookieData) -> CheckEnv)
      returns (result: LoginOutcome, calls: seq<Call>)
      modifies this
      ensures Run(0, [], maxRetries, Verdicts(backend, env)) == Trace(result, calls, currentRetry, usedCookies)
    {
      ghost var attempt := Verdicts(backend, env);
      currentRetry := 0;
      usedCookies := [];
      calls := [];
      while currentRetry < maxRetries
        invariant Run(0, [], maxRetries, attempt) == Prepend(calls, Run(currentRetry, usedCookies, maxRetries, attempt))
        decreases maxRetries - currentRetry
      {
        ghost var before, retry, used := calls, currentRetry, usedCookies;
        currentRetry := currentRetry + 1;
        var query, v := FetchAndCheck(backend, env);
        RunStep(retry, used, maxRetries, attempt, query, v);
        calls := calls + [Preview(query)];
        if v.NoCookie? {
          if currentRetry >= maxRetries {
            return Failed(v.message), calls;
          }
          PrependTwice(before, [Preview(query)], Run(currentRetry, used, maxRetries, attempt));
        } else if v.Works? {
          calls := calls + [Confirm(v.cookie.cookieId)];
          return Succeeded(v.cookie), calls;
        } else {
          var dead := ReportDead(v.cookie.cookieId, v.code);
          calls := calls + [dead];
          usedCookies := AddId(usedCookies, v.cookie.cookieId);
          assert calls == before + [Preview(query), dead];
          PrependTwice(before, [Preview(query), dead], Run(currentRetry, usedCookies, maxRetries, attempt));
        }
      }
      result := Failed(AllFailed);
    }
  }
}
