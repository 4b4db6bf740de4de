/**
 * The cookie injection of the browser extension's background script
 * (TiemBanhNetflixExtension/background.js): parsing cookie text, building
 * a cookie's URL, and injecting a batch of cookies one by one.
 *
 * `decodeURIComponent` and `chrome.cookies.set` are parameters: the first
 * gives the decoded text or nothing when it throws, the second nothing on
 * success or the message it rejects with.
 */
module Background {
  import opened Basics
  import opened Strings

  /** A JavaScript value, as far as a cookie field can hold one. */
  datatype Val = Undefined | Null | Bool(b: bool) | Num(n: int) | Str(s: string)

  predicate Truthy(v: Val)
  {
    match v
    case Undefined => false
    case Null => false
    case Bool(b) => b
    case Num(n) => n != 0
    case Str(s) => s != ""
  }

  /** `v || fallback`. */
  function Or(v: Val, fallback: Val): (r: Val)
    ensures Truthy(v) ==> r == v
    ensures !Truthy(v) ==> r == fallback
  {
    if Truthy(v) then v else fallback
  }

  /** A cookie object; a missing field is `Undefined`. */
  datatype CookieObj = CookieObj(name: Val, value: Val, domain: Val, path: Val, secure: Val,
                                 httpOnly: Val, sameSite: Val, expirationDate: Val)

  /** What a call returns, or the message of what it throws. */
  datatype Outcome<T> = Done(value: T) | Threw(message: string)

  const MissingEquals := "Invalid cookie string format: missing \"=\""

  // ---------------------------------------------------------------------
  // parseSingleCookie / parseCookieString

  /** The value decoded only when it holds `%`, kept as it is when decoding throws. */
  function DecodeValue(value: string, decode: string -> Option<string>): (r: string)
    ensures '%' !in value ==> r == value
    ensures '%' in value && decode(value).None? ==> r == value
    ensures '%' in value && decode(value).Some? ==> r == decode(value).value
  {
    if '%' in value then
      match decode(value)
      case Some(d) => d
      case None => value
    else value
  }

  /** A cookie with only a name and a value: the browser fills in the rest. */
  function PairObj(name: string, value: string): CookieObj
  {
    CookieObj(Str(name), Str(value), Undefined, Undefined, Undefined, Undefined, Undefined, Undefined)
  }

  /** `parseSingleCookie`: split at the first `=`, trim both sides, decode the value. */
  function ParseSingleCookie(s: string, decode: string -> Option<string>): (r: Outcome<CookieObj>)
    ensures r.Threw? <==> '=' !in s
    ensures r.Threw? ==> r.message == MissingEquals
    ensures r.Done? ==> exists n, v :: r.value == PairObj(n, v)
  {
    match IndexOf(s, '=')
    case None => Threw(MissingEquals)
    case Some(i) =>
      var name := Trim(s[..i], JavaScript);
      var value := Trim(s[i + 1..], JavaScript);
      Done(PairObj(name, DecodeValue(value, decode)))
  }

  /** A trimmed name, `=`, and a trimmed value without `%` read back as that name and value; the value may hold `=`. */
  lemma {:induction false} SingleRoundTrip(name: string, value: string, decode: string -> Option<string>)
    requires '=' !in name && '%' !in value
    requires name == [] || (!IsJsSpace(name[0]) && !IsJsSpace(name[|name| - 1]))
    requires value == [] || (!IsJsSpace(value[0]) && !IsJsSpace(value[|value| - 1]))
    ensures ParseSingleCookie(name + "=" + value, decode) == Done(PairObj(name, value))
  {
    var s := name + "=" + value;
    assert s[|name|] == '=';
    assert IndexOf(s, '=') == Some(|name|);
    assert s[..|name|] == name && s[|name| + 1..] == value;
    TrimNoop(name, JavaScript);
    TrimNoop(value, JavaScript);
  }

  /** Text with an `=` reads as the trimmed text before the first `=` and the trimmed, decoded text after it. */
  lemma {:induction false} SingleTrims(name: string, value: string, decode: string -> Option<string>)
    requires '=' !in name
    ensures ParseSingleCookie(name + "=" + value, decode)
      == Done(PairObj(Trim(name, JavaScript), DecodeValue(Trim(value, JavaScript), decode)))
  {
    var s := name + "=" + value;
    assert s[|name|] == '=';
    assert IndexOf(s, '=') == Some(|name|);
    assert s[..|name|] == name && s[|name| + 1..] == value;
  }

  /** The trimmed pieces that contain `=`, in order. */
  function WithEquals(parts: seq<string>): (r: seq<string>)
    ensures forall k :: 0 <= k < |r| ==> '=' in r[k]
    ensures |r| <= |parts|
    decreases |parts|
  {
    if |parts| == 0 then []
    else
      var rest := WithEquals(parts[1..]);
      var t := Trim(parts[0], JavaScript);
      if '=' in t then [t] + rest else rest
  }

  /** `parseSingleCookie` over pieces that all hold `=`, which therefore never throw. */
  function ParseAll(segments: seq<string>, decode: string -> Option<string>): (r: seq<CookieObj>)
    requires forall k :: 0 <= k < |segments| ==> '=' in segments[k]
    ensures |r| == |segments|
    ensures forall k :: 0 <= k < |segments| ==> ParseSingleCookie(segments[k], decode) == Done(r[k])
    decreases |segments|
  {
    if |segments| == 0 then []
    else [ParseSingleCookie(segments[0], decode).value] + ParseAll(segments[1..], decode)
  }

  /** `parseCookieString`: several `;`-separated cookies, or a single one. */
  function ParseCookieString(s: string, decode: string -> Option<string>): (r: Outcome<seq<CookieObj>>)
    ensures r.Threw? <==> ';' !in s && '=' !in s
    ensures r.Threw? ==> r.message == MissingEquals
    ensures ';' !in s && r.Done? ==> r.value == [ParseSingleCookie(s, decode).value]
    ensures ';' in s ==> r == Done(ParseAll(WithEquals(Split(s, ';')), decode))
  {
    if ';' in s && |Split(s, ';')| > 1 then Done(ParseAll(WithEquals(Split(s, ';')), decode))
    else
      assert ';' in s ==> |Split(s, ';')| > 1 by { SplitPieces(s, ';'); }
      match ParseSingleCookie(s, decode)
      case Done(c) => Done([c])
      case Threw(m) => Threw(m)
  }

  /** Cookies joined with `; ` come back one per piece, each with its name and value. */
  lemma {:induction false} CookieStringRoundTrip(pieces: seq<string>, decode: string -> Option<string>)
    requires |pieces| >= 2
    requires forall k :: 0 <= k < |pieces| ==> ';' !in pieces[k] && '=' in pieces[k]
    ensures ParseCookieString(Join(pieces, ';'), decode) == Done(ParseAll(WithEquals(pieces), decode))
  {
    JoinHasSep(pieces, ';');
    SplitJoin(pieces, ';');
  }

  /** With no whitespace around them, every piece that holds `=` is kept, in order. */
  lemma {:induction false} WithEqualsKeeps(pieces: seq<string>)
    requires forall k :: 0 <= k < |pieces| ==> '=' in pieces[k]
    requires forall k :: 0 <= k < |pieces| ==> !IsJsSpace(pieces[k][0]) && !IsJsSpace(pieces[k][|pieces[k]| - 1])
    ensures WithEquals(pieces) == pieces
    decreases |pieces|
  {
    if |pieces| > 0 {
      TrimNoop(pieces[0], JavaScript);
      WithEqualsKeeps(pieces[1..]);
      assert [pieces[0]] + pieces[1..] == pieces;
    }
  }

  // ---------------------------------------------------------------------
  // getCookieUrl

  function Scheme(secure: bool): string { if secure then "https://" else "http://" }

  /** `getCookieUrl`: the scheme from `secure`, the domain without one leading dot, `/` for an empty path. */
  function GetCookieUrl(domain: string, path: string, secure: bool): (url: string)
    ensures |Scheme(secure)| < |url| && url[..|Scheme(secure)|] == Scheme(secure)
    ensures path != "" ==> EndsWith(url, path)
    ensures path == "" ==> url[|url| - 1] == '/'
    // a domain without a leading dot is the host as given
    ensures (|domain| == 0 || domain[0] != '.') ==> url == Scheme(secure) + domain + (if path == "" then "/" else path)
  {
    var protocol := if secure then "https://" else "http://";
    var cleanDomain := if |domain| > 0 && domain[0] == '.' then domain[1..] else domain;
    var cleanPath := if path == "" then "/" else path;
    assert (protocol + cleanDomain + cleanPath)[..|protocol|] == protocol;
    assert (protocol + cleanDomain + cleanPath)[|protocol + cleanDomain|..] == cleanPath;
    protocol + cleanDomain + cleanPath
  }

  predicate EndsWith(s: string, t: string) { |t| <= |s| && s[|s| - |t|..] == t }

  /** A leading dot makes no difference, and only one is dropped: a second one stays in the URL. */
  lemma DotDropped(domain: string, path: string, secure: bool)
    requires |domain| > 0 ==> domain[0] != '.'
    ensures GetCookieUrl("." + domain, path, secure) == GetCookieUrl(domain, path, secure)
    ensures |GetCookieUrl(".." + domain, path, secure)| == |GetCookieUrl(domain, path, secure)| + 1
  {
    assert ("." + domain)[1..] == domain;
    assert (".." + domain)[1..] == "." + domain;
  }

  // ---------------------------------------------------------------------
  // injectCookiesImproved

  /** One entry of the batch: cookie text, a cookie object, or `null`/`undefined`. */
  datatype Item = TextItem(text: string) | ObjItem(obj: CookieObj) | NullItem | UndefinedItem

  /** `cookieData`: an array, or a single value (a string is cookie text). */
  datatype Input = ListInput(items: seq<Item>) | SingleInput(item: Item)

  /** The details handed to `chrome.cookies.set`. */
  datatype Details = Details(url: string, name: Val, value: string, domain: Val, path: Val, secure: Val,
                             httpOnly: Val, sameSite: Val, expirationDate: Option<Val>)

  /** One entry of `failed`. */
  datatype Failure = Failure(cookie: Item, error: string)

  /** `results`. */
  datatype Results = Results(success: seq<Val>, failed: seq<Failure>)

  const DefaultTabUrl := "https://www.netflix.com/"
  const NullCookie := "Cannot read properties of null (reading 'name')"
  const UndefinedCookie := "Cannot read properties of undefined (reading 'name')"
  const ValueNotText := "details.value.substring is not a function"

  /** A field the cookie does not have becomes `null`. */
  function OrNull(v: Val): Val { if v != Undefined then v else Null }

  /**
   * The details of one cookie: name and value default to `''`, domain,
   * path, secure and httpOnly to `null`, sameSite is copied, and the expiry
   * is set only when truthy. The log line then takes a substring of the
   * value, which throws when the value is not text.
   */
  function PrepareDetails(c: CookieObj, tabUrl: string): (r: Outcome<Details>)
    ensures r.Done? ==> r.value.url == tabUrl && r.value.name == Or(c.name, Str(""))
    ensures r.Done? ==> (r.value.expirationDate.Some? <==> Truthy(c.expirationDate))
    ensures r.Done? && Truthy(c.expirationDate) ==> r.value.expirationDate == Some(c.expirationDate)
    ensures r.Threw? <==> !Or(c.value, Str("")).Str?
    ensures r.Done? ==> (Truthy(c.value) ==> c.value.Str? && r.value.value == c.value.s)
    ensures r.Done? ==> (!Truthy(c.value) ==> r.value.value == "")
    ensures r.Done? ==> (c.domain == Undefined ==> r.value.domain == Null) && (c.domain != Undefined ==> r.value.domain == c.domain)
    ensures r.Done? ==> (c.path == Undefined ==> r.value.path == Null) && (c.path != Undefined ==> r.value.path == c.path)
    ensures r.Done? ==> (c.secure == Undefined ==> r.value.secure == Null) && (c.secure != Undefined ==> r.value.secure == c.secure)
    ensures r.Done? ==> (c.httpOnly == Undefined ==> r.value.httpOnly == Null)
    ensures r.Done? ==> (c.httpOnly != Undefined ==> r.value.httpOnly == c.httpOnly)
    ensures r.Done? ==> r.value.sameSite == c.sameSite
  {
    var name := Or(c.name, Str(""));
    var value := Or(c.value, Str(""));
    if !value.Str? then Threw(ValueNotText)
    else
      Done(Details(tabUrl, name, value.s, OrNull(c.domain), OrNull(c.path), OrNull(c.secure), OrNull(c.httpOnly),
                   c.sameSite, if Truthy(c.expirationDate) then Some(c.expirationDate) else None))
  }

  /** The `try` block for one cookie: the name pushed to `success`, or the message pushed to `failed`. */
  function InjectOne(item: Item, tabUrl: string, decode: string -> Option<string>, store: Details -> Option<string>): Outcome<Val>
  {
    match item
    case NullItem => Threw(NullCookie)
    case UndefinedItem => Threw(UndefinedCookie)
    case TextItem(s) =>
      (match ParseSingleCookie(s, decode)
       case Threw(m) => Threw(m)
       case Done(c) => SetCookie(c, tabUrl, store))
    case ObjItem(c) => SetCookie(c, tabUrl, store)
  }

  function SetCookie(c: CookieObj, tabUrl: string, store: Details -> Option<string>): Outcome<Val>
  {
    match PrepareDetails(c, tabUrl)
    case Threw(m) => Threw(m)
    case Done(d) =>
      match store(d)
      case None => Done(c.name)
      case Some(m) => Threw(m)
  }

  /** The batch `injectCookiesImproved` works through, or what `parseCookieString` threw. */
  function Normalize(input: Input, decode: string -> Option<string>): Outcome<seq<Item>>
  {
    match input
    case ListInput(items) => Done(items)
    case SingleInput(TextItem(s)) =>
      (match ParseCookieString(s, decode)
       case Threw(m) => Threw(m)
       case Done(cs) => Done(seq(|cs|, k requires 0 <= k < |cs| => ObjItem(cs[k]))))
    case SingleInput(item) => Done([item])
  }

  /** The names of the cookies that were set, in order. */
  function Successes(items: seq<Item>, tabUrl: string, decode: string -> Option<string>, store: Details -> Option<string>): seq<Val>
    decreases |items|
  {
    if |items| == 0 then []
    else
      var rest := Successes(items[..|items| - 1], tabUrl, decode, store);
      match InjectOne(items[|items| - 1], tabUrl, decode, store)
      case Done(n) => rest + [n]
      case Threw(_) => rest
  }

  /** The cookies that were not set, with their messages, in order. */
  function Failures(items: seq<Item>, tabUrl: string, decode: string -> Option<string>, store: Details -> Option<string>): seq<Failure>
    decreases |items|
  {
    if |items| == 0 then []
    else
      var rest := Failures(items[..|items| - 1], tabUrl, decode, store);
      match InjectOne(items[|items| - 1], tabUrl, decode, store)
      case Done(_) => rest
      case Threw(m) => rest + [Failure(items[|items| - 1], m)]
  }

  /** `injectCookiesImproved` as a function of its input and the two browser calls. */
  function Inject(input: Input, tabUrl: string, decode: string -> Option<string>, store: Details -> Option<string>): Outcome<Results>
  {
    match Normalize(input, decode)
    case Threw(m) => Threw(m)
    case Done(items) => Done(Results(Successes(items, tabUrl, decode, store), Failures(items, tabUrl, decode, store)))
  }

  /** Every cookie of the batch lands in exactly one of the two lists. */
  lemma {:induction false} EachCookieOnce(items: seq<Item>, tabUrl: string, decode: string -> Option<string>, store: Details -> Option<string>)
    ensures |Successes(items, tabUrl, decode, store)| + |Failures(items, tabUrl, decode, store)| == |items|
    decreases |items|
  {
    if |items| > 0 { EachCookieOnce(items[..|items| - 1], tabUrl, decode, store); }
  }

  /** Every cookie of the batch that is set has its name among the successes. */
  lemma {:induction false} SetCookiesRecorded(items: seq<Item>, tabUrl: string, decode: string -> Option<string>, store: Details -> Option<string>)
    ensures forall k :: 0 <= k < |items| && InjectOne(items[k], tabUrl, decode, store).Done? ==>
      InjectOne(items[k], tabUrl, decode, store).value in Successes(items, tabUrl, decode, store)
    decreases |items|
  {
    if |items| > 0 {
      var init := items[..|items| - 1];
      SetCookiesRecorded(init, tabUrl, decode, store);
      var succ0 := Successes(init, tabUrl, decode, store);
      var succ := Successes(items, tabUrl, decode, store);
      assert forall x :: x in succ0 ==> x in succ;
      forall k | 0 <= k < |init| ensures items[k] == init[k] { }
    }
  }

  /** Every cookie of the batch that is not set appears among the failures with its message. */
  lemma {:induction false} FailedCookiesRecorded(items: seq<Item>, tabUrl: string, decode: string -> Option<string>, store: Details -> Option<string>)
    ensures forall k :: 0 <= k < |items| && InjectOne(items[k], tabUrl, decode, store).Threw? ==>
      Failure(items[k], InjectOne(items[k], tabUrl, decode, store).message) in Failures(items, tabUrl, decode, store)
    decreases |items|
  {
    if |items| > 0 {
      var init := items[..|items| - 1];
      FailedCookiesRecorded(init, tabUrl, decode, store);
      var fail0 := Failures(init, tabUrl, decode, store);
      var fail := Failures(items, tabUrl, decode, store);
      assert forall x :: x in fail0 ==> x in fail;
      forall k | 0 <= k < |init| ensures items[k] == init[k] { }
    }
  }

  /** A failure records the cookie itself, and only cookies of the batch fail. */
  lemma {:induction false} FailuresFromBatch(items: seq<Item>, tabUrl: string, decode: string -> Option<string>, store: Details -> Option<string>)
    ensures forall f :: f in Failures(items, tabUrl, decode, store) ==>
      f.cookie in items && InjectOne(f.cookie, tabUrl, decode, store) == Threw(f.error)
    decreases |items|
  {
    if |items| > 0 {
      var init := items[..|items| - 1];
      FailuresFromBatch(init, tabUrl, decode, store);
      forall f | f in Failures(items, tabUrl, decode, store)
        ensures f.cookie in items && InjectOne(f.cookie, tabUrl, decode, store) == Threw(f.error)
      {
        if f in Failures(init, tabUrl, decode, store) { assert f.cookie in init; }
      }
    }
  }

  /** Only text given as a whole can make the call throw, and only when it has neither `;` nor `=`. */
  lemma InjectThrowsOnlyOnBareText(input: Input, tabUrl: string, decode: string -> Option<string>, store: Details -> Option<string>)
    ensures Inject(input, tabUrl, decode, store).Threw? <==>
      input.SingleInput? && input.item.TextItem? && ';' !in input.item.text && '=' !in input.item.text
  {
  }

  /** `injectCookiesImproved`: normalise the input, then try each cookie in turn. */
  method InjectCookiesImproved(cookieData: Input, tabUrl: string, decode: string -> Option<string>, store: Details -> Option<string>)
    returns (r: Outcome<Results>)
    ensures r == Inject(cookieData, tabUrl, decode, store)
  {
    var cookies: seq<Item>;
    match cookieData {
      case SingleInput(TextItem(s)) =>
        var parsed := ParseCookieString(s, decode);
        if parsed.Threw? {
          return Threw(parsed.message);
        }
        cookies := seq(|parsed.value|, k requires 0 <= k < |parsed.value| => ObjItem(parsed.value[k]));
      case ListInput(items) =>
        cookies := items;
      case SingleInput(item) =>
        cookies := [item];
    }
    assert Normalize(cookieData, decode) == Done(cookies);
    var success: seq<Val> := [];
    var failed: seq<Failure> := [];
    for i := 0 to |cookies|
      invariant success == Successes(cookies[..i], tabUrl, decode, store)
      invariant failed == Failures(cookies[..i], tabUrl, decode, store)
    {
      assert cookies[..i + 1][..i] == cookies[..i];
      var outcome := InjectOne(cookies[i], tabUrl, decode, store);
      if outcome.Done? {
        success := success + [outcome.value];
      } else {
        failed := failed + [Failure(cookies[i], outcome.message)];
      }
    }
    assert cookies[..|cookies|] == cookies;
    r := Done(Results(success, failed));
  }
}
