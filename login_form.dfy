/**
 * The log-in page: the email and phone validators, the order of the checks
 * before the request, the remembered email, and the forgot-password guard.
 */
module LoginForm {
  import opened Wrappers
  import opened JsText
  import WhatsAppConfig

  /** `[^\s@]`: neither JavaScript white space nor `@`. */
  predicate EmailChar(c: char) { !IsJsSpace(c) && c != '@' }

  predicate AllEmailChars(s: string) { forall i :: 0 <= i < |s| ==> EmailChar(s[i]) }

  /**
   * `/^[^\s@]+@[^\s@]+\.[^\s@]+$/` matches `s` with its `@` at `at` and the
   * literal dot at `dot`: three non-empty runs without white space or `@`.
   */
  predicate EmailSplit(s: string, at: int, dot: int) {
    && 0 < at && at + 1 < dot && dot + 1 < |s|
    && s[at] == '@' && s[dot] == '.'
    && AllEmailChars(s[..at]) && AllEmailChars(s[at + 1..dot]) && AllEmailChars(s[dot + 1..])
  }

  ghost predicate EmailPattern(s: string) { exists at, dot :: EmailSplit(s, at, dot) }

  /** `validateEmail`: find the first `@`, then require a dot strictly inside the rest. */
  function ValidateEmail(s: string): (b: bool)
    ensures b ==> Contains(s, "@") && s[0] != '@'
  {
    match IndexOf(s, "@")
    case None => false
    case Some(at) =>
      at > 0 && AllEmailChars(s[..at]) && AllEmailChars(s[at + 1..])
      && exists dot :: at + 1 < dot < |s| - 1 && s[dot] == '.'
  }

  /** What the first-`@` computation accepts the regular expression matches. */
  lemma ValidateEmailSound(s: string)
    requires ValidateEmail(s)
    ensures EmailPattern(s)
  {
    var at := IndexOf(s, "@").value;
    assert s[at] == '@' by { assert s[at..at + 1][0] == s[at]; }
    var dot :| at + 1 < dot < |s| - 1 && s[dot] == '.';
    assert s[at + 1..dot] == s[at + 1..][..dot - at - 1];
    assert s[dot + 1..] == s[at + 1..][dot - at..];
    assert EmailSplit(s, at, dot);
  }

  /** What the regular expression matches the first-`@` computation accepts. */
  lemma ValidateEmailComplete(s: string, a: int, d: int)
    requires EmailSplit(s, a, d)
    ensures ValidateEmail(s)
  {
    assert OccursAt(s, "@", a) by { assert s[a..a + 1] == [s[a]]; }
    var at := IndexOf(s, "@").value;
    EmailAtIsFirst(s, a, d, at);
    var rest := s[a + 1..];
    assert rest == s[a + 1..d] + [s[d]] + s[d + 1..];
    assert AllEmailChars(rest);
  }

  /** The first-`@` computation accepts exactly what the regular expression matches. */
  lemma ValidateEmailMatchesPattern(s: string)
    ensures ValidateEmail(s) <==> EmailPattern(s)
  {
    if ValidateEmail(s) {
      ValidateEmailSound(s);
    }
    if EmailPattern(s) {
      var a, d :| EmailSplit(s, a, d);
      ValidateEmailComplete(s, a, d);
    }
  }

  /** The split's `@` is the first one in the string. */
  lemma EmailAtIsFirst(s: string, a: int, d: int, first: nat)
    requires EmailSplit(s, a, d)
    requires OccursAt(s, "@", first) && forall j :: 0 <= j < first ==> !OccursAt(s, "@", j)
    ensures first == a
  {
    assert OccursAt(s, "@", a) by { assert s[a..a + 1] == [s[a]]; }
    if first < a {
      assert s[first] == '@' by { assert s[first..first + 1][0] == s[first]; }
    }
  }

  /** `/^\+?\d{10,15}$/`: an optional plus sign and 10 to 15 digits. */
  predicate LoginPhonePattern(s: string) {
    (AllDigits(s) && 10 <= |s| <= 15) || WhatsAppConfig.PhonePattern(s)
  }

  function ValidatePhone(s: string): (b: bool)
    ensures b <==> LoginPhonePattern(s)
  {
    var digits := if s != [] && s[0] == '+' then s[1..] else s;
    if s != [] && s[0] == '+' then
      AllDigits(digits) && 10 <= |digits| <= 15
    else
      assert !WhatsAppConfig.PhonePattern(s);
      AllDigits(digits) && 10 <= |digits| <= 15
  }

  /** Every number the widget form accepts also passes the log-in check; bare digits pass only the latter. */
  lemma LoginPhoneWidensWidgetPhone(s: string, d: string)
    requires AllDigits(d) && 10 <= |d| <= 15
    ensures WhatsAppConfig.PhonePattern(s) ==> ValidatePhone(s)
    ensures ValidatePhone(d) && !WhatsAppConfig.PhonePattern(d)
  {
    assert d[0] != '+' by { assert IsDigit(d[0]); }
  }

  const FillAllFields := "Please fill in all fields"
  const InvalidPhone := "Please enter a valid phone number"
  const InvalidEmail := "Please enter a valid email address"
  const ShortPassword := "Password must be at least 6 characters"

  /**
   * `handleEmailLogin`'s checks in order: a missing identifier of the active
   * kind or password, then that identifier's format, then a password shorter
   * than 6. None lets the request go.
   */
  function LoginCheck(usePhone: bool, email: string, phone: string, password: string): (r: Option<string>)
    ensures usePhone && (phone == [] || password == []) ==> r == Some(FillAllFields)
    ensures !usePhone && (email == [] || password == []) ==> r == Some(FillAllFields)
    ensures usePhone && phone != [] && password != [] && !LoginPhonePattern(phone) ==> r == Some(InvalidPhone)
    ensures !usePhone && email != [] && password != [] && !EmailPattern(email) ==> r == Some(InvalidEmail)
    ensures r.None? <==> (if usePhone then LoginPhonePattern(phone) else EmailPattern(email)) && |password| >= 6
    ensures r.Some? && r != Some(FillAllFields) && r != Some(InvalidPhone) && r != Some(InvalidEmail) ==> r == Some(ShortPassword)
    ensures (if usePhone then LoginPhonePattern(phone) else EmailPattern(email)) && 0 < |password| < 6 ==> r == Some(ShortPassword)
  {
    ValidateEmailMatchesPattern(email);
    if usePhone && (phone == [] || password == []) then Some(FillAllFields)
    else if usePhone && !ValidatePhone(phone) then Some(InvalidPhone)
    else if !usePhone && (email == [] || password == []) then Some(FillAllFields)
    else if !usePhone && !ValidateEmail(email) then Some(InvalidEmail)
    else if |password| < 6 then Some(ShortPassword)
    else None
  }

  /** The inactive identifier plays no part in the checks. */
  lemma InactiveIdentifierIgnored(usePhone: bool, email: string, email': string, phone: string, phone': string, password: string)
    ensures usePhone ==> LoginCheck(true, email, phone, password) == LoginCheck(true, email', phone, password)
    ensures !usePhone ==> LoginCheck(false, email, phone, password) == LoginCheck(false, email, phone', password)
  {
  }

  /** The mount effect's test: the `rememberedEmail` entry when it is truthy. */
  function MountedEmail(storage: map<string, string>): (r: Option<string>)
    ensures r.Some? <==> "rememberedEmail" in storage && storage["rememberedEmail"] != []
    ensures r.Some? ==> r.value == storage["rememberedEmail"]
  {
    if "rememberedEmail" in storage && storage["rememberedEmail"] != [] then Some(storage["rememberedEmail"]) else None
  }

  /**
   * The "remember me" step of a log-in that passed its checks: the email, or an
   * empty text in phone mode, is stored when ticked and the entry removed
   * otherwise; no other entry changes.
   */
  function Remembered(storage: map<string, string>, rememberMe: bool, usePhone: bool, email: string): (r: map<string, string>)
    ensures rememberMe ==> "rememberedEmail" in r && r["rememberedEmail"] == (if usePhone then "" else email)
    ensures !rememberMe ==> "rememberedEmail" !in r
    ensures forall k :: k != "rememberedEmail" ==> (k in r <==> k in storage)
    ensures forall k :: k != "rememberedEmail" && k in r ==> r[k] == storage[k]
  {
    if rememberMe then storage["rememberedEmail" := if usePhone then "" else email]
    else storage - {"rememberedEmail"}
  }

  /** The request body: only the active identifier, and the password. */
  datatype LoginPayload = PhonePayload(phone: string, password: string) | EmailPayload(email: string, password: string)

  /** The log-in request's result. */
  datatype LoginReply = LoginOk(token: string) | LoginRejected(serverMessage: Option<string>, otherText: Option<string>)

  class LoginPage {
    var usePhone: bool
    var email: string
    var phone: string
    var password: string
    var rememberMe: bool
    var error: string
    /** `localStorage`, by key. */
    var storage: map<string, string>

    /** Mounting: a truthy remembered email fills the email field and ticks "remember me". */
    constructor (storage: map<string, string>)
      ensures this.storage == storage && !usePhone && phone == "" && password == "" && error == ""
      ensures MountedEmail(storage).Some? ==> email == MountedEmail(storage).value && rememberMe
      ensures MountedEmail(storage).None? ==> email == "" && !rememberMe
    {
      this.storage := storage;
      usePhone := false;
      phone := "";
      password := "";
      error := "";
      match MountedEmail(storage)
      case Some(remembered) =>
        email := remembered;
        rememberMe := true;
      case None =>
        email := "";
        rememberMe := false;
    }

    /**
     * `handleEmailLogin`: the first failing check sets the error and stops;
     * otherwise the remembered email is stored or removed, the payload sent,
     * and the token stored or the error shown.
     */
    method HandleEmailLogin(reply: LoginReply) returns (payload: Option<LoginPayload>)
      modifies this
      ensures LoginCheck(usePhone, email, phone, password).Some? ==>
        payload.None? && error == LoginCheck(usePhone, email, phone, password).value && storage == old(storage)
      ensures LoginCheck(usePhone, email, phone, password).None? ==>
        && payload == Some(if usePhone then PhonePayload(phone, password) else EmailPayload(email, password))
        && var remembered := Remembered(old(storage), rememberMe, usePhone, email);
           && (reply.LoginOk? ==> storage == remembered["token" := reply.token] && error == "")
           && (reply.LoginRejected? ==>
                 (storage == remembered && error == Or(reply.serverMessage, Or(reply.otherText, "Login failed. Please try again."))))
      ensures usePhone == old(usePhone) && email == old(email) && phone == old(phone)
      ensures password == old(password) && rememberMe == old(rememberMe)
    {
      error := "";
      var check := LoginCheck(usePhone, email, phone, password);
      if check.Some? {
        error := check.value;
        return None;
      }
      storage := Remembered(storage, rememberMe, usePhone, email);
      payload := Some(if usePhone then PhonePayload(phone, password) else EmailPayload(email, password));
      match reply
      case LoginOk(token) =>
        storage := storage["token" := token];
      case LoginRejected(serverMessage, otherText) =>
        error := Or(serverMessage, Or(otherText, "Login failed. Please try again."));
    }

    /** `handleForgotPassword`: the active identifier must be present and valid; the reset goes to it. */
    method HandleForgotPassword() returns (sentTo: Option<string>)
      modifies this
      ensures usePhone ==> (sentTo.Some? <==> LoginPhonePattern(phone)) && (sentTo.Some? ==> sentTo.value == phone)
      ensures !usePhone ==> (sentTo.Some? <==> EmailPattern(email)) && (sentTo.Some? ==> sentTo.value == email)
      ensures usePhone && phone == [] ==> error == "Please enter your phone number first"
      ensures !usePhone && email == [] ==> error == "Please enter your email first"
      ensures sentTo.None? && usePhone && phone != [] ==> error == InvalidPhone
      ensures sentTo.None? && !usePhone && email != [] ==> error == InvalidEmail
      ensures sentTo.Some? ==> error == old(error)
      ensures usePhone == old(usePhone) && email == old(email) && phone == old(phone) && password == old(password)
      ensures rememberMe == old(rememberMe) && storage == old(storage)
    {
      if usePhone {
        if phone == [] {
          error := "Please enter your phone number first";
          return None;
        }
        if !ValidatePhone(phone) {
          error := InvalidPhone;
          return None;
        }
        sentTo := Some(phone);
      } else {
        if email == [] {
          error := "Please enter your email first";
          return None;
        }
        ValidateEmailMatchesPattern(email);
        if !ValidateEmail(email) {
          error := InvalidEmail;
          return None;
        }
        sentTo := Some(email);
      }
    }
  }

  /**
   * A page mounted over the storage a successful log-in left shows the email
   * again, ticked, exactly when "remember me" was ticked in email mode;
   * otherwise it starts empty and unticked.
   */
  method RemountAfterLogin(storage: map<string, string>, usePhone: bool, email: string, phone: string,
                           password: string, rememberMe: bool, token: string) returns (next: LoginPage)
    requires LoginCheck(usePhone, email, phone, password).None?
    ensures next.rememberMe <==> rememberMe && !usePhone
    ensures next.email == if rememberMe && !usePhone then email else ""
  {
    var page := new LoginPage(storage);
    page.usePhone := usePhone;
    page.email := email;
    page.phone := phone;
    page.password := password;
    page.rememberMe := rememberMe;
    var payload := page.HandleEmailLogin(LoginOk(token));
    RememberRoundTrip(storage, usePhone, email, phone, password, rememberMe, token);
    next := new LoginPage(page.storage);
  }

  /** What the next mount reads from the storage a successful log-in leaves, in all four cases. */
  lemma RememberRoundTrip(storage: map<string, string>, usePhone: bool, email: string, phone: string,
                          password: string, rememberMe: bool, token: string)
    requires LoginCheck(usePhone, email, phone, password).None?
    ensures MountedEmail(Remembered(storage, rememberMe, usePhone, email)["token" := token]) ==
      if rememberMe && !usePhone then Some(email) else None
  {
    if rememberMe && !usePhone {
      RememberedEmailRestored(storage, email, phone, password, token);
    } else if rememberMe {
      PhoneModeForgetsEmail(storage, email, token);
    }
  }

  /** Logging in by email with "remember me" ticked brings that email back on the next mount. */
  lemma RememberedEmailRestored(storage: map<string, string>, email: string, phone: string, password: string, token: string)
    requires LoginCheck(false, email, phone, password).None?
    ensures MountedEmail(Remembered(storage, true, false, email)["token" := token]) == Some(email)
  {
    var a, d :| EmailSplit(email, a, d);
    assert email != [];
  }

  /** In phone mode the remembered email is stored empty, which the next mount treats as nothing remembered. */
  lemma PhoneModeForgetsEmail(storage: map<string, string>, email: string, token: string)
    ensures MountedEmail(Remembered(storage, true, true, email)["token" := token]) == None
  {
  }
}
