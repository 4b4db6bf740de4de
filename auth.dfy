/**
 * The sign-up and account rules of auth.js: password strength, the
 * registration checks with their anti-spam state, the credit-purchase
 * amount rule, e-mail masking and the OTP countdown display.
 */
module Auth {
  import opened Basics
  import opened Strings

  // ---------------------------------------------------------------------
  // Password strength

  predicate IsAsciiLower(c: char) { 'a' <= c <= 'z' }
  predicate IsAsciiUpper(c: char) { 'A' <= c <= 'Z' }
  predicate IsAsciiAlnum(c: char) { IsAsciiLower(c) || IsAsciiUpper(c) || IsDigit(c) }

  predicate HasLower(s: string) { exists k :: 0 <= k < |s| && IsAsciiLower(s[k]) }
  predicate HasUpper(s: string) { exists k :: 0 <= k < |s| && IsAsciiUpper(s[k]) }
  predicate HasDigit(s: string) { exists k :: 0 <= k < |s| && IsDigit(s[k]) }
  predicate HasSymbol(s: string) { exists k :: 0 <= k < |s| && !IsAsciiAlnum(s[k]) }

  /** One point per rule met (length 8, length 12, both cases, a digit, a symbol), capped at 3. */
  function Strength(password: string): (r: nat)
    ensures r <= 3
  {
    var n := Utf16Length(password);
    var points := (if n >= 8 then 1 else 0) + (if n >= 12 then 1 else 0)
      + (if HasLower(password) && HasUpper(password) then 1 else 0)
      + (if HasDigit(password) then 1 else 0) + (if HasSymbol(password) then 1 else 0);
    if points < 3 then points else 3
  }

  /** `calculatePasswordStrength`: a counter bumped by each rule, then capped. */
  method CalculatePasswordStrength(password: string) returns (strength: nat)
    ensures strength == Strength(password)
  {
    var n := Utf16Length(password);
    strength := 0;
    if n >= 8 { strength := strength + 1; }
    if n >= 12 { strength := strength + 1; }
    if HasLower(password) && HasUpper(password) { strength := strength + 1; }
    if HasDigit(password) { strength := strength + 1; }
    if HasSymbol(password) { strength := strength + 1; }
    if strength > 3 { strength := 3; }
  }

  /** Twelve units with both cases is the best score. */
  lemma LongMixedIsStrong(password: string)
    requires Utf16Length(password) >= 12 && HasLower(password) && HasUpper(password)
    ensures Strength(password) == 3
  {
  }

  /** Fewer than eight lower-case letters score nothing. */
  lemma ShortLowerIsWeak(password: string)
    requires |password| < 8 && forall k :: 0 <= k < |password| ==> IsAsciiLower(password[k])
    ensures Strength(password) == 0
  {
    assert Utf16Length(password) == |password| by { AsciiLength(password); }
  }

  lemma {:induction false} AsciiLength(s: string)
    requires forall k :: 0 <= k < |s| ==> s[k] as int <= 0x7F
    ensures Utf16Length(s) == |s|
    decreases |s|
  {
    if |s| > 0 { AsciiLength(s[..|s| - 1]); }
  }

  /** A password that passes the length check scores at least 1, so the "too weak" refusal needs a second rule to fail. */
  lemma LengthEightScoresOne(password: string)
    requires Utf16Length(password) >= 8
    ensures Strength(password) >= 1
  {
  }

  // ---------------------------------------------------------------------
  // E-mail shape

  predicate EmailChar(c: char) { !IsJsSpace(c) && c != '@' }

  predicate AllEmailChars(s: string) { forall k :: 0 <= k < |s| ==> EmailChar(s[k]) }

  /** Some dot of `d` has a character before and after it. */
  predicate HasInnerDot(d: string) { exists k :: 1 <= k < |d| - 1 && d[k] == '.' }

  /**
   * `/^[^\s@]+@[^\s@]+\.[^\s@]+$/`: a non-empty local part and a domain, both
   * without whitespace or `@`, the domain holding a dot with text on both sides.
   */
  predicate EmailShape(email: string) {
    match IndexOf(email, '@')
    case None => false
    case Some(at) =>
      var local := email[..at];
      var domain := email[at + 1..];
      local != "" && AllEmailChars(local) && AllEmailChars(domain) && HasInnerDot(domain)
  }

  /** The shape is exactly "one `@` between two clean halves". */
  lemma EmailShapeParts(local: string, domain: string)
    ensures EmailShape(local + "@" + domain) <==>
      (local != "" && AllEmailChars(local) && AllEmailChars(domain) && HasInnerDot(domain))
  {
    var e := local + "@" + domain;
    if '@' in local {
      var j :| 0 <= j < |local| && local[j] == '@';
      assert e[j] == '@';
      var at := IndexOf(e, '@').value;
      assert at <= j;
      assert e[at + 1..][|local| - at - 1] == e[|local|] == '@';
    } else {
      assert IndexOf(e, '@') == Some(|local|) by {
        assert e[|local|] == '@';
        forall k | 0 <= k < |local| ensures e[k] != '@' { assert e[k] == local[k]; }
      }
      assert e[..|local|] == local;
      assert e[|local| + 1..] == domain;
    }
  }

  // ---------------------------------------------------------------------
  // Registration

  const CooldownMs := 60000
  const HourMs := 3600000
  const MaxAttemptsPerHour := 5

  /** The checks of `handleRegister`, reported by the first one that fails. */
  datatype Refusal =
    | CaptchaMissing
    | TooFast(remainingSeconds: int)
    | HourlyLimit
    | NameTooShort
    | PasswordMismatch
    | PasswordTooShort
    | PasswordTooWeak
    | BadEmail

  /** How many recorded attempts are later than `bound` (`history.filter(time => time > bound).length`). */
  function CountAfter(history: seq<int>, bound: int): (n: nat)
    ensures n <= |history|
  {
    if |history| == 0 then 0
    else CountAfter(history[..|history| - 1], bound) + (if history[|history| - 1] > bound then 1 else 0)
  }

  /** `Math.ceil((60000 - elapsed) / 1000)` for an elapsed time under the cooldown. */
  function RemainingSeconds(elapsed: int): (r: int)
    requires elapsed < CooldownMs
    ensures r >= 1 && (r - 1) * 1000 < CooldownMs - elapsed <= r * 1000
    ensures elapsed >= 0 ==> r <= 60
  {
    (CooldownMs - elapsed + 999) / 1000
  }

  /** The field checks, in the order `handleRegister` makes them. */
  function FormRefusal(name: string, email: string, password: string, confirm: string): (r: Option<Refusal>)
    ensures r == Some(NameTooShort) <==> Utf16Length(name) < 3
    ensures r == Some(PasswordMismatch) <==> Utf16Length(name) >= 3 && password != confirm
    ensures r == Some(PasswordTooShort) <==>
      Utf16Length(name) >= 3 && password == confirm && Utf16Length(password) < 8
    ensures r == Some(PasswordTooWeak) <==>
      Utf16Length(name) >= 3 && password == confirm && Utf16Length(password) >= 8 && Strength(password) < 2
    ensures r == Some(BadEmail) <==>
      Utf16Length(name) >= 3 && password == confirm && Utf16Length(password) >= 8 && Strength(password) >= 2
      && !EmailShape(email)
    ensures r.Some? ==> r.value in {NameTooShort, PasswordMismatch, PasswordTooShort, PasswordTooWeak, BadEmail}
  {
    if Utf16Length(name) < 3 then Some(NameTooShort)
    else if password != confirm then Some(PasswordMismatch)
    else if Utf16Length(password) < 8 then Some(PasswordTooShort)
    else if Strength(password) < 2 then Some(PasswordTooWeak)
    else if !EmailShape(email) then Some(BadEmail)
    else None
  }

  /** All eight checks: captcha, cooldown, hourly cap, then the form. */
  function RegisterRefusal(captcha: bool, lastRegister: int, history: seq<int>, now: int,
                           name: string, email: string, password: string, confirm: string): (r: Option<Refusal>)
    ensures r == Some(CaptchaMissing) <==> !captcha
    ensures (r.Some? && r.value.TooFast?) <==> captcha && now - lastRegister < CooldownMs
    ensures r.Some? && r.value.TooFast? ==> r.value.remainingSeconds == RemainingSeconds(now - lastRegister)
    ensures r == Some(HourlyLimit) <==>
      captcha && now - lastRegister >= CooldownMs && CountAfter(history, now - HourMs) >= MaxAttemptsPerHour
    ensures captcha && now - lastRegister >= CooldownMs && CountAfter(history, now - HourMs) < MaxAttemptsPerHour
      ==> r == FormRefusal(name, email, password, confirm)
  {
    if !captcha then Some(CaptchaMissing)
    else if now - lastRegister < CooldownMs then Some(TooFast(RemainingSeconds(now - lastRegister)))
    else if CountAfter(history, now - HourMs) >= MaxAttemptsPerHour then Some(HourlyLimit)
    else FormRefusal(name, email, password, confirm)
  }

  /** A registration goes to the server exactly when every one of the eight rules holds. */
  lemma RegisterAcceptedIff(captcha: bool, lastRegister: int, history: seq<int>, now: int,
                            name: string, email: string, password: string, confirm: string)
    ensures RegisterRefusal(captcha, lastRegister, history, now, name, email, password, confirm).None? <==>
      && captcha
      && now - lastRegister >= CooldownMs
      && CountAfter(history, now - HourMs) < MaxAttemptsPerHour
      && Utf16Length(name) >= 3
      && password == confirm
      && Utf16Length(password) >= 8
      && Strength(password) >= 2
      && EmailShape(email)
  {
  }

  /** An attempt within a minute of the last accepted one is refused, whatever the form holds. */
  lemma CooldownRefuses(lastRegister: int, history: seq<int>, now: int,
                        name: string, email: string, password: string, confirm: string)
    requires now - lastRegister < CooldownMs
    ensures RegisterRefusal(true, lastRegister, history, now, name, email, password, confirm)
      == Some(TooFast(RemainingSeconds(now - lastRegister)))
  {
  }

  lemma {:induction false} CountAfterSnoc(history: seq<int>, t: int, bound: int)
    ensures CountAfter(history + [t], bound) == CountAfter(history, bound) + (if t > bound then 1 else 0)
  {
    assert (history + [t])[..|history|] == history;
  }

  /** Accepting a registration never takes the last hour past five recorded attempts. */
  lemma AcceptedKeepsHourlyCap(lastRegister: int, history: seq<int>, now: int,
                               name: string, email: string, password: string, confirm: string)
    requires RegisterRefusal(true, lastRegister, history, now, name, email, password, confirm).None?
    ensures CountAfter(history + [now], now - HourMs) <= MaxAttemptsPerHour
  {
    CountAfterSnoc(history, now, now - HourMs);
  }

  /** Five attempts recorded within the hour refuse the sixth, however long ago the last one was. */
  lemma HourlyCapRefuses(lastRegister: int, history: seq<int>, now: int,
                         name: string, email: string, password: string, confirm: string)
    requires now - lastRegister >= CooldownMs && CountAfter(history, now - HourMs) >= MaxAttemptsPerHour
    ensures RegisterRefusal(true, lastRegister, history, now, name, email, password, confirm) == Some(HourlyLimit)
  {
  }

  /** What a press of the register button ends in. */
  datatype RegisterResult = Refused(reason: Refusal) | ServerAccepted | ServerRejected

  /** The module-level `antiSpam` object together with the `register_history` list kept in local storage. */
  class AntiSpam {
    var captchaVerified: bool
    var lastRegisterTime: int
    var history: seq<int>

    /** A fresh page: captcha unticked, no registration yet, the stored history as found. */
    constructor (stored: seq<int>)
      ensures !captchaVerified && lastRegisterTime == 0 && history == stored
    {
      captchaVerified := false;
      lastRegisterTime := 0;
      history := stored;
    }

    /** `toggleCaptcha`: unticking is immediate, ticking completes after the simulated delay. */
    method ToggleCaptcha()
      modifies this
      ensures captchaVerified == !old(captchaVerified)
      ensures lastRegisterTime == old(lastRegisterTime) && history == old(history)
    {
      captchaVerified := !captchaVerified;
    }

    /**
     * `handleRegister` at time `now`; `accepted` is whether the server answered
     * with an OK status. The time is recorded only after an accepted request.
     */
    method HandleRegister(name: string, email: string, password: string, confirm: string,
                          now: int, accepted: bool) returns (r: RegisterResult)
      modifies this
      ensures var refusal := RegisterRefusal(old(captchaVerified), old(lastRegisterTime), old(history),
                                             now, name, email, password, confirm);
        && (refusal.Some? ==> r == Refused(refusal.value))
        && (refusal.None? ==> r == if accepted then ServerAccepted else ServerRejected)
        && (if refusal.None? && accepted
            then lastRegisterTime == now && history == old(history) + [now]
            else lastRegisterTime == old(lastRegisterTime) && history == old(history))
      ensures captchaVerified == old(captchaVerified)
    {
      if !captchaVerified { return Refused(CaptchaMissing); }
      var elapsed := now - lastRegisterTime;
      if elapsed < CooldownMs { return Refused(TooFast(RemainingSeconds(elapsed))); }
      var recent := CountAfter(history, now - HourMs);
      if recent >= MaxAttemptsPerHour { return Refused(HourlyLimit); }
      if Utf16Length(name) < 3 { return Refused(NameTooShort); }
      if password != confirm { return Refused(PasswordMismatch); }
      if Utf16Length(password) < 8 { return Refused(PasswordTooShort); }
      var strength := CalculatePasswordStrength(password);
      if strength < 2 { return Refused(PasswordTooWeak); }
      if !EmailShape(email) { return Refused(BadEmail); }
      if accepted {
        lastRegisterTime := now;
        history := history + [now];
        r := ServerAccepted;
      } else {
        r := ServerRejected;
      }
    }
  }

  // ---------------------------------------------------------------------
  // Credits

  const MinPurchase := 30000
  const VndPerCredit := 500

  /** `calculateCredits` on the `parseInt` of the amount (`None` is NaN): the credits previewed, or none with the button disabled. */
  function PreviewCredits(amount: Option<int>): (c: Option<nat>)
    ensures c.Some? ==> amount.Some? && c.value * VndPerCredit == amount.value
  {
    match amount
    case None => None
    case Some(n) =>
      if n < MinPurchase then None
      else if n % 1000 != 0 then None
      else Some(n / VndPerCredit)
  }

  /** The guard of `confirmPurchaseCredits`. */
  predicate PurchaseAccepted(amount: Option<int>) {
    amount.Some? && amount.value != 0 && amount.value >= MinPurchase && amount.value % 1000 == 0
  }

  /** The preview and the confirmation agree, and an accepted amount buys at least 60 credits, a whole even number. */
  lemma CreditsAgree(amount: Option<int>)
    ensures PreviewCredits(amount).Some? <==> PurchaseAccepted(amount)
    ensures PurchaseAccepted(amount) ==>
      PreviewCredits(amount).value >= 60 && PreviewCredits(amount).value % 2 == 0
  {
  }

  lemma CreditsExample()
    ensures PreviewCredits(Some(30000)) == Some(60)
    ensures PreviewCredits(Some(30500)) == None && PreviewCredits(Some(29000)) == None
  {
  }

  // ---------------------------------------------------------------------
  // Masking

  /**
   * `maskEmail`: text without `@` is returned as is; otherwise the local part
   * (before the first `@`) is hidden behind `***` and the domain (up to a
   * second `@`) is appended. An empty local part reads as `undefined`, as
   * JavaScript prints `''[0]`.
   */
  function MaskEmail(email: string): (r: string)
    ensures '@' !in email ==> r == email
  {
    if email == "" || '@' !in email then email
    else
      var parts := Split(email, '@');
      SplitPieces(email, '@');
      MaskParts(parts[0], parts[1])
  }

  /** The mask of a local part and a domain: whatever the local part, it ends in `@` and the domain. */
  function MaskParts(local: string, domain: string): (r: string)
    ensures |r| > |domain| && r[|r| - |domain| - 1..] == "@" + domain
  {
    if Utf16Length(local) <= 3 then
      var head := (if local == "" then "undefined" else [local[0]]) + "***";
      EndsWithDomain(head, domain);
      head + "@" + domain
    else
      var head := local[..2] + "***" + [local[|local| - 1]];
      EndsWithDomain(head, domain);
      head + "@" + domain
  }

  /** For an address `local@domain` the mask keeps the domain and at most three characters of the local part. */
  lemma MaskOfParts(local: string, domain: string)
    requires '@' !in local && '@' !in domain && local != ""
    ensures var r := MaskEmail(local + "@" + domain);
      && (Utf16Length(local) <= 3 ==> r == [local[0]] + "***" + "@" + domain)
      && (Utf16Length(local) > 3 ==> r == local[..2] + "***" + [local[|local| - 1]] + "@" + domain)
      && |r| > |domain| && r[|r| - |domain| - 1..] == "@" + domain
  {
    MaskOfAddress(local, domain);
    MaskPartsShape(local, domain);
  }

  /** The mask of an address with one `@` is the mask of its two parts. */
  lemma MaskOfAddress(local: string, domain: string)
    requires '@' !in local && '@' !in domain
    ensures MaskEmail(local + "@" + domain) == MaskParts(local, domain)
  {
    var e := local + "@" + domain;
    SplitAddress(local, domain);
    assert '@' in e by { assert e[|local|] == '@'; }
  }

  /** What the mask of two parts shows of a non-empty local part. */
  lemma MaskPartsShape(local: string, domain: string)
    requires local != ""
    ensures Utf16Length(local) <= 3 ==> MaskParts(local, domain) == [local[0]] + "***" + "@" + domain
    ensures Utf16Length(local) > 3 ==> MaskParts(local, domain) == local[..2] + "***" + [local[|local| - 1]] + "@" + domain
  {
  }

  /** An address with one `@` splits into its local part and its domain. */
  lemma SplitAddress(local: string, domain: string)
    requires '@' !in local && '@' !in domain
    ensures Split(local + "@" + domain, '@') == [local, domain]
  {
    SplitJoin([local, domain], '@');
    JoinCons(local, [domain], '@');
  }

  lemma EndsWithDomain(head: string, domain: string)
    ensures var r := head + "@" + domain; |r| > |domain| && r[|r| - |domain| - 1..] == "@" + domain
  {
    var r := head + "@" + domain;
    assert r == head + ("@" + domain);
  }

  // ---------------------------------------------------------------------
  // OTP countdown

  /** `updateTimerDisplay`'s text: minutes, a colon, and the seconds on two digits. */
  function TimerText(seconds: nat): string
  {
    NatToString(seconds / 60) + ":" + PadStart(NatToString(seconds % 60), 2, '0')
  }

  /** `updateTimerDisplay`'s colour: red in the last minute, orange up to three minutes, yellow before. */
  function TimerColor(seconds: nat): (c: string)
    ensures seconds <= 60 ==> c == "#ef4444"
    ensures 60 < seconds <= 180 ==> c == "#f59e0b"
    ensures seconds > 180 ==> c == "#fbbf24"
  {
    if seconds <= 60 then "#ef4444" else if seconds <= 180 then "#f59e0b" else "#fbbf24"
  }

  /** The display reads back as the number of seconds: `m:ss` with two digits after the colon. */
  lemma TimerTextReadsBack(seconds: nat)
    ensures var t := TimerText(seconds);
      exists m, ss :: t == m + ":" + ss && AllDigits(m) && AllDigits(ss) && |ss| == 2
        && DecimalValue(m) * 60 + DecimalValue(ss) == seconds
  {
    var m := NatToString(seconds / 60);
    var s := NatToString(seconds % 60);
    var ss := PadStart(s, 2, '0');
    PadStartZeros(s, 2);
    assert |s| <= 2 by {
      if |s| > 2 { DecimalAtLeast(s); }
    }
    assert TimerText(seconds) == m + ":" + ss;
  }

  /** A decimal string with no leading zero and at least three digits is worth at least 100. */
  lemma DecimalAtLeast(s: string)
    requires AllDigits(s) && |s| > 2 && s[0] != '0'
    ensures DecimalValue(s) >= 100
  {
    var a := s[..|s| - 1];
    var b := a[..|a| - 1];
    assert DecimalValue(s) >= 10 * DecimalValue(a);
    assert DecimalValue(a) >= 10 * DecimalValue(b);
    DecimalPositive(b);
  }

  lemma {:induction false} DecimalPositive(s: string)
    requires AllDigits(s) && |s| > 0 && s[0] != '0'
    ensures DecimalValue(s) >= 1
    decreases |s|
  {
    if |s| > 1 {
      var a := s[..|s| - 1];
      assert a[0] == s[0];
      DecimalPositive(a);
    }
  }

  lemma TimerExample()
    ensures TimerText(125) == "2:05" && TimerColor(125) == "#f59e0b"
  {
    assert 125 / 60 == 2 && 125 % 60 == 5;
    assert NatToString(2) == "2";
    assert NatToString(5) == "5";
    assert PadStart("5", 2, '0') == PadStart("05", 2, '0') == "05";
  }
}
