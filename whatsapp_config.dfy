/**
 * The WhatsApp widget's configuration constants: the defaults that
 * `createWidget` fills in and the phone-number pattern it enforces.
 */
module WhatsAppConfig {
  import opened JsText

  const DefaultPosition: string := "bottom-right"
  const DefaultButtonColor: string := "#25D366"
  const DefaultAgentName: string := "Jane Doe"
  const DefaultReplyTime: string := "Online"
  /** A single space: non-empty, hence truthy wherever it is tested. */
  const DefaultGreetingMessage: string := " "
  const DefaultWelcomeMessage: string := "Hi there \U{1F970} How can I help you?"

  /** What `/^\+\d{10,15}$/` describes: a plus sign, then 10 to 15 ASCII digits, and nothing else. */
  predicate PhonePattern(s: string) {
    |s| >= 1 && s[0] == '+' && AllDigits(s[1..]) && 10 <= |s| - 1 <= 15
  }

  /** `PHONE_REGEX.test(s)`, run as the anchored pattern's automaton from left to right. */
  function PhoneRegexTest(s: string): (b: bool)
    ensures b <==> PhonePattern(s)
  {
    |s| > 0 && s[0] == '+' && DigitRun(s, 1, 0)
  }

  /**
   * The automaton after the plus sign, at index `i` with `count` digits read;
   * a sixteenth digit or a non-digit makes the match fail.
   */
  function DigitRun(s: string, i: nat, count: nat): (b: bool)
    requires 1 <= i <= |s| && count == i - 1 && AllDigits(s[1..i])
    ensures b <==> AllDigits(s[1..]) && 10 <= |s| - 1 <= 15
    decreases |s| - i
  {
    if i == |s| then
      assert s[1..i] == s[1..];
      10 <= count <= 15
    else if !IsDigit(s[i]) then
      assert s[1..][i - 1] == s[i];
      false
    else if count == 15 then
      false
    else
      assert s[1..i + 1] == s[1..i] + [s[i]];
      DigitRun(s, i + 1, count + 1)
  }

  /** The accepted numbers are exactly a plus sign followed by 10 to 15 digits. */
  lemma PhoneRegexShape(d: string)
    requires AllDigits(d)
    ensures PhoneRegexTest("+" + d) <==> 10 <= |d| <= 15
  {
    assert ("+" + d)[1..] == d;
  }

  /** Nine digits, sixteen digits, a missing plus sign or a non-digit after it are all rejected. */
  lemma PhoneRegexRejects(d: string, s: string, k: nat)
    requires AllDigits(d)
    requires 1 <= k < |s| && !IsDigit(s[k])
    ensures |d| == 9 ==> !PhoneRegexTest("+" + d)
    ensures |d| == 16 ==> !PhoneRegexTest("+" + d)
    ensures !PhoneRegexTest(d)
    ensures !PhoneRegexTest(s)
  {
    PhoneRegexShape(d);
    assert s[1..][k - 1] == s[k];
    if d != [] { assert !IsDigit('+') && d[0] != '+'; }
  }

  /** A missing phone number is tested as the text "undefined", which never matches. */
  lemma UndefinedPhoneRejected()
    ensures !PhoneRegexTest(Interp(Wrappers.None))
  {
  }

  /** The single-space greeting default is truthy, so a record always ends up with a greeting. */
  lemma DefaultGreetingIsTruthy()
    ensures Truthy(Wrappers.Some(DefaultGreetingMessage)) && AllSpace(DefaultGreetingMessage)
  {
  }
}
