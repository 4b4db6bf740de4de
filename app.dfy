/**
 * The page script of the guest-sharing site (app.js): the cookie text
 * parser, the "extension detected" flag and the routing of the
 * "watch as guest" button.
 */
module App {
  import opened Basics
  import opened Strings

  // ---------------------------------------------------------------------
  // parseCookie

  /** A cookie as `parseCookie` builds it; `expiration` is the raw text `parseInt` would read. */
  datatype Cookie = Cookie(name: string, value: string, domain: string, path: string,
                           secure: bool, httpOnly: bool, expiration: Option<string>)

  /** What `parseCookie` gives: the text handed to `JSON.parse`, a cookie, or the error it throws. */
  datatype Parsed = FromJson(json: string) | Parsed(cookie: Cookie) | Thrown(message: string)

  const UnknownFormat := "Unknown cookie format"
  const PairDomain := ".netflix.com"

  /**
   * The groups of `/^([^=]+)=(.+)$/`: the name runs up to the first `=` and
   * is not empty; the value is everything after it, not empty, and free of
   * line terminators, which `.` does not match.
   */
  function PairMatch(text: string): (m: Option<(string, string)>)
    ensures m.Some? ==> m.value.0 != "" && '=' !in m.value.0 && m.value.1 != "" && NoLineTerminator(m.value.1)
    ensures m.Some? ==> text == m.value.0 + "=" + m.value.1
  {
    match IndexOf(text, '=')
    case None => None
    case Some(i) =>
      if i == 0 || i + 1 >= |text| || !NoLineTerminator(text[i + 1..]) then None
      else
        assert text == text[..i] + "=" + text[i + 1..];
        Some((text[..i], text[i + 1..]))
  }

  /** `parseCookie`: JSON first, then `name=value`, then a Netscape line of seven or more tab-separated fields. */
  function ParseCookie(text: string): (r: Parsed)
    ensures r.FromJson? <==> |text| > 0 && text[0] == '{'
    ensures r.FromJson? ==> r.json == text
    ensures r.Thrown? ==> r.message == UnknownFormat
    ensures r.Thrown? <==> !(|text| > 0 && text[0] == '{') && PairMatch(text).None? && |Split(text, '\t')| < 7
  {
    if |text| > 0 && text[0] == '{' then FromJson(text)
    else if '=' in text && PairMatch(text).Some? then
      var (name, value) := PairMatch(text).value;
      Parsed(Cookie(Trim(name, JavaScript), Trim(value, JavaScript), PairDomain, "/", true, false, None))
    else if '\t' in text && |Split(text, '\t')| >= 7 then
      var parts := Split(text, '\t');
      Parsed(Cookie(Trim(parts[5], JavaScript), Trim(parts[6], JavaScript), Trim(parts[0], JavaScript),
                    Trim(parts[2], JavaScript), parts[3] == "TRUE", false, Some(parts[4])))
    else
      assert '\t' !in text ==> Split(text, '\t') == [text];
      Thrown(UnknownFormat)
  }

  /** `name=value` text reads back as the trimmed name and value, on the site's fixed domain and path. */
  lemma {:induction false} PairRoundTrip(name: string, value: string)
    requires name != "" && name[0] != '{' && '=' !in name
    requires value != "" && NoLineTerminator(value)
    ensures ParseCookie(name + "=" + value)
      == Parsed(Cookie(Trim(name, JavaScript), Trim(value, JavaScript), PairDomain, "/", true, false, None))
  {
    var text := name + "=" + value;
    assert text[|name|] == '=';
    assert IndexOf(text, '=') == Some(|name|);
    assert text[..|name|] == name && text[|name| + 1..] == value;
  }

  /** A Netscape line without `=` reads back field by field: name 5, value 6, domain 0, path 2, secure iff field 3 is `TRUE`. */
  lemma {:induction false} NetscapeRoundTrip(fields: seq<string>)
    requires |fields| >= 7
    requires forall i :: 0 <= i < |fields| ==> '\t' !in fields[i] && '=' !in fields[i]
    requires |fields[0]| > 0 ==> fields[0][0] != '{'
    ensures ParseCookie(Join(fields, '\t'))
      == Parsed(Cookie(Trim(fields[5], JavaScript), Trim(fields[6], JavaScript), Trim(fields[0], JavaScript),
                       Trim(fields[2], JavaScript), fields[3] == "TRUE", false, Some(fields[4])))
  {
    var text := Join(fields, '\t');
    JoinLacks(fields, '\t', '=');
    JoinHasSep(fields, '\t');
    SplitJoin(fields, '\t');
    assert |text| > 0 && text[0] != '{' by {
      if |fields[0]| > 0 { assert text[0] == text[..|fields[0]|][0] == fields[0][0]; }
    }
    assert '\t' in text;
  }

  /**
   * The pair branch is tried before the tab branch: a Netscape line whose
   * value holds an `=` becomes a pair cookie whose name is everything before that `=`.
   */
  lemma TabbedLineWithEquals(text: string)
    requires |text| > 0 && text[0] != '{' && PairMatch(text).Some?
    ensures ParseCookie(text).Parsed? && ParseCookie(text).cookie.domain == PairDomain
    ensures ParseCookie(text).cookie.name == Trim(PairMatch(text).value.0, JavaScript)
  {
  }

  // ---------------------------------------------------------------------
  // The extension flag

  /** The fields of `state` and `CONFIG` that the extension events touch. */
  datatype ExtensionFlags = ExtensionFlags(hasExtension: bool, extensionId: Option<string>, configId: Option<string>)

  const Initial := ExtensionFlags(false, None, None)

  /** The two window events: the extension announced itself, or it was reported missing. */
  datatype Event = Ready(id: string) | NotFound

  /** `onExtensionDetected`: ignored once detected; otherwise records the extension. */
  function Detected(f: ExtensionFlags, id: string): ExtensionFlags
  {
    if f.hasExtension then f else ExtensionFlags(true, Some(id), Some(id))
  }

  /**
   * One event. The ready listener stores the id in `state` and `CONFIG`
   * before it calls `onExtensionDetected`; the not-found handler leaves a
   * detected extension alone and otherwise rewrites `false`.
   */
  function Step(f: ExtensionFlags, e: Event): ExtensionFlags
  {
    match e
    case Ready(id) => Detected(f.(extensionId := Some(id), configId := Some(id)), id)
    case NotFound => f
  }

  function Replay(f: ExtensionFlags, events: seq<Event>): ExtensionFlags
    decreases |events|
  {
    if |events| == 0 then f else Step(Replay(f, events[..|events| - 1]), events[|events| - 1])
  }

  /** Once detected, the extension stays detected whatever arrives later. */
  lemma {:induction false} DetectedStays(f: ExtensionFlags, events: seq<Event>)
    requires f.hasExtension
    ensures Replay(f, events).hasExtension
    decreases |events|
  {
    if |events| > 0 { DetectedStays(f, events[..|events| - 1]); }
  }

  /** Some ready event, and nothing else, marks the extension as present. */
  lemma {:induction false} DetectedIffReady(events: seq<Event>)
    ensures Replay(Initial, events).hasExtension <==> exists k :: 0 <= k < |events| && events[k].Ready?
    decreases |events|
  {
    if |events| > 0 {
      var init := events[..|events| - 1];
      DetectedIffReady(init);
      if exists k :: 0 <= k < |init| && init[k].Ready? {
        var k :| 0 <= k < |init| && init[k].Ready?;
        assert events[k] == init[k];
      }
      if exists k :: 0 <= k < |events| && events[k].Ready? {
        var k :| 0 <= k < |events| && events[k].Ready?;
        if k < |init| { assert init[k] == events[k]; }
      }
    }
  }

  /** The id of the last ready event, if any. */
  function LastReadyId(events: seq<Event>): Option<string>
    decreases |events|
  {
    if |events| == 0 then None
    else match events[|events| - 1]
      case Ready(id) => Some(id)
      case NotFound => LastReadyId(events[..|events| - 1])
  }

  /**
   * The stored id is the last one announced, not the first: a repeated
   * ready event is skipped by `onExtensionDetected` but still overwrites
   * `state.extensionId` and `CONFIG.EXTENSION_ID` beforehand.
   */
  lemma {:induction false} IdIsLastAnnounced(events: seq<Event>)
    ensures Replay(Initial, events).extensionId == LastReadyId(events)
    ensures Replay(Initial, events).configId == LastReadyId(events)
    decreases |events|
  {
    if |events| > 0 { IdIsLastAnnounced(events[..|events| - 1]); }
  }

  // ---------------------------------------------------------------------
  // Guest flow routing

  /** `monthlyReportLimit` as the database returns it. */
  datatype Limit = LimitUndefined | LimitNull | LimitNumber(n: int)

  /** The user record `refreshUserFromDatabase` returns. */
  datatype User = User(limit: Limit, plan: string)

  /** `limit !== undefined && limit <= 0`; `null` compares as 0. */
  predicate Exhausted(l: Limit)
  {
    match l
    case LimitUndefined => false
    case LimitNull => true
    case LimitNumber(n) => n <= 0
  }

  /** Where `_watchAsGuestInternal` leads. */
  datatype Route =
    | TabMissing            // step 1 not done: nothing else happens
    | LimitReachedFree      // upgrade modal
    | LimitReachedPro       // support modal
    | LimitReachedSilent    // another plan: the flow just stops
    | AutoInject            // after a report: straight to the watching section
    | ProDirect             // pro user: no ad, no plan modal
    | PlanModal             // everyone else chooses a plan

  /** The route and whether the missing-extension warning was shown on the way. */
  datatype Routing = Routing(route: Route, extensionWarning: bool)

  predicate Stopped(r: Route) { r == LimitReachedFree || r == LimitReachedPro || r == LimitReachedSilent }

  /** The decision `_watchAsGuestInternal` takes; `user` is the answer of `refreshUserFromDatabase`. */
  function GuestRouting(tabOpen: bool, hasExtension: bool, skipQuota: bool, skipAdAndPlan: bool, user: Option<User>): (r: Routing)
    ensures r.route == TabMissing <==> !tabOpen
    ensures r.extensionWarning <==> tabOpen && !hasExtension
    ensures Stopped(r.route) <==> tabOpen && !skipQuota && user.Some? && Exhausted(user.value.limit)
    ensures r.route == AutoInject <==> tabOpen && skipAdAndPlan && !Stopped(r.route)
    ensures r.route == ProDirect <==>
      tabOpen && !Stopped(r.route) && !skipAdAndPlan && user.Some? && user.value.plan == "pro"
    ensures r.route == PlanModal <==>
      tabOpen && !Stopped(r.route) && !skipAdAndPlan && !(user.Some? && user.value.plan == "pro")
  {
    if !tabOpen then Routing(TabMissing, false)
    else
      var warn := !hasExtension;
      if !skipQuota && user.Some? && Exhausted(user.value.limit) then
        Routing(if user.value.plan == "free" then LimitReachedFree
                else if user.value.plan == "pro" then LimitReachedPro
                else LimitReachedSilent, warn)
      else if skipAdAndPlan then Routing(AutoInject, warn)
      else if user.Some? && user.value.plan == "pro" then Routing(ProDirect, warn)
      else Routing(PlanModal, warn)
  }

  /** The reported-issue path never checks the quota, so it never stops on it. */
  lemma AfterReportNeverStops(tabOpen: bool, hasExtension: bool, user: Option<User>)
    requires tabOpen
    ensures GuestRouting(tabOpen, hasExtension, true, true, user).route == AutoInject
  {
  }

  /** The page state the handlers read and write. */
  class AppState {
    var hasExtension: bool
    var extensionId: Option<string>
    var configId: Option<string>
    var netflixTabOpen: bool

    function Flags(): ExtensionFlags
      reads this
    {
      ExtensionFlags(hasExtension, extensionId, configId)
    }

    constructor()
      ensures Flags() == Initial && !netflixTabOpen
    {
      hasExtension := false;
      extensionId := None;
      configId := None;
      netflixTabOpen := false;
    }

    /** `onExtensionDetected`. */
    method OnExtensionDetected(id: string)
      modifies this
      ensures Flags() == Detected(old(Flags()), id)
      ensures netflixTabOpen == old(netflixTabOpen)
    {
      if hasExtension {
        return;
      }
      hasExtension := true;
      extensionId := Some(id);
      configId := Some(id);
    }

    /** `onExtensionNotDetected`. */
    method OnExtensionNotDetected()
      modifies this
      ensures Flags() == Step(old(Flags()), NotFound)
      ensures netflixTabOpen == old(netflixTabOpen)
    {
      if hasExtension {
        return;
      }
      hasExtension := false;
    }

    /** The `NetflixGuestExtensionReady` listener. */
    method OnExtensionReady(id: string)
      modifies this
      ensures Flags() == Step(old(Flags()), Ready(id))
      ensures netflixTabOpen == old(netflixTabOpen)
    {
      extensionId := Some(id);
      configId := Some(id);
      OnExtensionDetected(id);
    }

    /** `_watchAsGuestInternal`: the route taken from the current page state. */
    method WatchAsGuestInternal(skipQuotaCheck: bool, skipAdAndPlanModal: bool, freshUser: Option<User>)
      returns (r: Routing)
      ensures r == GuestRouting(netflixTabOpen, hasExtension, skipQuotaCheck, skipAdAndPlanModal, freshUser)
    {
      if !netflixTabOpen {
        return Routing(TabMissing, false);
      }
      var warned := false;
      if !hasExtension {
        warned := true;
      }
      if !skipQuotaCheck {
        if freshUser.Some? {
          if Exhausted(freshUser.value.limit) {
            if freshUser.value.plan == "free" {
              return Routing(LimitReachedFree, warned);
            } else if freshUser.value.plan == "pro" {
              return Routing(LimitReachedPro, warned);
            }
            return Routing(LimitReachedSilent, warned);
          }
        }
      }
      if skipAdAndPlanModal {
        return Routing(AutoInject, warned);
      }
      if freshUser.Some? {
        if freshUser.value.plan == "pro" {
          return Routing(ProDirect, warned);
        }
      }
      return Routing(PlanModal, warned);
    }
  }
}
