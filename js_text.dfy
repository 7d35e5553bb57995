/**
 * The small part of JavaScript's string semantics the handlers rely on:
 * character classes of its regular expressions, truthiness, `||` defaults,
 * template interpolation, `startsWith`, `includes`, `trim` and `toLowerCase`.
 */
module JsText {
  import opened Wrappers

  predicate IsDigit(c: char) { '0' <= c <= '9' }
  predicate IsAsciiLetter(c: char) { 'a' <= c <= 'z' || 'A' <= c <= 'Z' }
  predicate IsAsciiAlnum(c: char) { IsAsciiLetter(c) || IsDigit(c) }
  predicate IsLowerHex(c: char) { IsDigit(c) || 'a' <= c <= 'f' }

  predicate AllDigits(s: string) { forall i :: 0 <= i < |s| ==> IsDigit(s[i]) }

  /** The characters matched by `\s`, which are also the ones `trim` removes. */
  predicate IsJsSpace(c: char) {
    || c == ' ' || c == '\t' || c == '\n' || c == '\r'
    || c == '\U{000B}' || c == '\U{000C}' || c == '\U{00A0}' || c == '\U{1680}'
    || ('\U{2000}' <= c <= '\U{200A}')
    || c == '\U{2028}' || c == '\U{2029}' || c == '\U{202F}' || c == '\U{205F}'
    || c == '\U{3000}' || c == '\U{FEFF}'
  }

  predicate AllSpace(s: string) { forall i :: 0 <= i < |s| ==> IsJsSpace(s[i]) }

  /** JavaScript truthiness of a value that is a string or undefined. */
  predicate Truthy(v: Option<string>) { v.Some? && v.value != [] }

  /** `v || d` for a string-or-undefined `v`. */
  function Or(v: Option<string>, d: string): string {
    if Truthy(v) then v.value else d
  }

  /** Template interpolation `${v}` of a string-or-undefined `v`. */
  function Interp(v: Option<string>): string {
    if v.Some? then v.value else "undefined"
  }

  /** A JSON body field: absent, `null`, or a string. */
  datatype JsValue = Undefined | Null | Str(s: string)

  predicate JsTruthy(v: JsValue) { v.Str? && v.s != [] }

  /** A destructuring default `{ x = d }`: it applies to an absent field only, not to `null` or `""`. */
  function DefaultIfUndefined(v: JsValue, d: string): JsValue {
    if v.Undefined? then Str(d) else v
  }

  /** Template interpolation `${v}` of a JSON field. */
  function JsInterp(v: JsValue): (r: string)
    ensures v.Str? ==> r == v.s
    ensures !v.Str? ==> r != []
  {
    match v
    case Undefined => "undefined"
    case Null => "null"
    case Str(s) => s
  }

  /** `v || d` for a string default. */
  function JsOr(v: JsValue, d: string): string {
    if JsTruthy(v) then v.s else d
  }

  predicate StartsWith(s: string, p: string) { |p| <= |s| && s[..|p|] == p }

  /** `t` occurs in `s` at index `i`. */
  predicate OccursAt(s: string, t: string, i: int) {
    0 <= i && i + |t| <= |s| && s[i..i + |t|] == t
  }

  /** `s.includes(t)`, computed by trying every start position in turn. */
  function Contains(s: string, t: string): (b: bool)
    ensures b <==> exists i :: OccursAt(s, t, i)
    decreases |s|
  {
    if |t| > |s| then
      false
    else if s[..|t|] == t then
      assert OccursAt(s, t, 0);
      true
    else
      ContainsStep(s, t);
      Contains(s[1..], t)
  }

  /** When `t` is not at the front of `s`, it occurs in `s` iff it occurs in `s[1..]`. */
  lemma ContainsStep(s: string, t: string)
    requires |t| <= |s| && s[..|t|] != t
    ensures |s| > 0
    ensures (exists i :: OccursAt(s, t, i)) <==> (exists i :: OccursAt(s[1..], t, i))
  {
    if exists i :: OccursAt(s, t, i) {
      var i :| OccursAt(s, t, i);
      assert i != 0 by { assert s[0..|t|] == s[..|t|]; }
      assert s[1..][i - 1..i - 1 + |t|] == s[i..i + |t|];
      assert OccursAt(s[1..], t, i - 1);
    }
    if exists i :: OccursAt(s[1..], t, i) {
      var i :| OccursAt(s[1..], t, i);
      assert s[i + 1..i + 1 + |t|] == s[1..][i..i + |t|];
      assert OccursAt(s, t, i + 1);
    }
  }

  /** `s.indexOf(t)`, None for -1: the first index at which `t` occurs. */
  function IndexOf(s: string, t: string): (r: Option<nat>)
    ensures r.Some? ==> OccursAt(s, t, r.value) && forall j :: 0 <= j < r.value ==> !OccursAt(s, t, j)
    ensures r.None? <==> !Contains(s, t)
    decreases |s|
  {
    if |t| > |s| then None
    else if s[..|t|] == t then
      assert OccursAt(s, t, 0);
      Some(0)
    else
      ContainsStep(s, t);
      match IndexOf(s[1..], t)
      case None => None
      case Some(k) =>
        assert s[k + 1..k + 1 + |t|] == s[1..][k..k + |t|];
        forall j | 0 <= j < k + 1
          ensures !OccursAt(s, t, j)
        {
          if j > 0 {
            if j + |t| <= |s| {
              assert s[j..j + |t|] == s[1..][j - 1..j - 1 + |t|];
            }
            assert !OccursAt(s[1..], t, j - 1);
          } else {
            assert s[0..|t|] == s[..|t|];
          }
        }
        Some(k + 1)
  }

  /** `s.replace(t, rep)` with a string pattern: only the first occurrence is replaced. */
  function ReplaceFirst(s: string, t: string, rep: string): (r: string)
    ensures !Contains(s, t) ==> r == s
    ensures forall i :: OccursAt(s, t, i) && (forall j :: 0 <= j < i ==> !OccursAt(s, t, j)) ==>
      r == s[..i] + rep + s[i + |t|..]
  {
    match IndexOf(s, t)
    case None => s
    case Some(i) => s[..i] + rep + s[i + |t|..]
  }

  /** When `s` starts with `t`, replacing `t` by nothing drops exactly that prefix. */
  lemma ReplacePrefix(s: string, t: string)
    requires StartsWith(s, t)
    ensures ReplaceFirst(s, t, "") == s[|t|..]
  {
    assert OccursAt(s, t, 0);
    assert IndexOf(s, t) == Some(0);
  }

  lemma ContainsAtStart(s: string, t: string)
    requires StartsWith(s, t)
    ensures Contains(s, t)
  {
    assert OccursAt(s, t, 0);
  }

  lemma ContainsPrefixed(p: string, s: string, t: string)
    requires Contains(s, t)
    ensures Contains(p + s, t)
  {
    var i :| OccursAt(s, t, i);
    assert (p + s)[|p| + i..|p| + i + |t|] == s[i..i + |t|];
    assert OccursAt(p + s, t, |p| + i);
  }

  lemma ContainsSuffixed(s: string, q: string, t: string)
    requires Contains(s, t)
    ensures Contains(s + q, t)
  {
    var i :| OccursAt(s, t, i);
    assert (s + q)[i..i + |t|] == s[i..i + |t|];
    assert OccursAt(s + q, t, i);
  }

  lemma ContainsInfix(a: string, t: string, b: string)
    ensures Contains(a + t + b, t)
  {
    assert (a + t + b)[|a|..|a| + |t|] == t;
    assert OccursAt(a + t + b, t, |a|);
  }

  /** `t` cannot occur in `s` when one of its characters appears nowhere in `s`. */
  lemma ContainsNeedsChar(s: string, t: string, k: nat)
    requires k < |t| && forall i :: 0 <= i < |s| ==> s[i] != t[k]
    ensures !Contains(s, t)
  {
    forall i | 0 <= i && i + |t| <= |s|
      ensures !OccursAt(s, t, i)
    {
      assert s[i..i + |t|][k] == s[i + k];
    }
  }

  /** Number of whitespace characters at the front of `s`. */
  function LeadingSpaces(s: string): (k: nat)
    ensures k <= |s|
    ensures AllSpace(s[..k])
    ensures k < |s| ==> !IsJsSpace(s[k])
  {
    if s == [] || !IsJsSpace(s[0]) then 0
    else
      var k := LeadingSpaces(s[1..]);
      assert s[..k + 1] == [s[0]] + s[1..][..k];
      k + 1
  }

  /** Number of whitespace characters at the end of `s`. */
  function TrailingSpaces(s: string): (k: nat)
    ensures k <= |s|
    ensures AllSpace(s[|s| - k..])
    ensures k < |s| ==> !IsJsSpace(s[|s| - k - 1])
  {
    if s == [] || !IsJsSpace(s[|s| - 1]) then 0
    else
      var k := TrailingSpaces(s[..|s| - 1]);
      assert s[|s| - (k + 1)..] == s[..|s| - 1][|s| - 1 - k..] + [s[|s| - 1]];
      k + 1
  }

  /** `s.trim()`. */
  function Trim(s: string): string {
    var a := LeadingSpaces(s);
    if a == |s| then [] else s[a..|s| - TrailingSpaces(s)]
  }

  /** When some character is not whitespace, the trimmed range is not empty. */
  lemma TrimBounds(s: string)
    ensures LeadingSpaces(s) < |s| ==> LeadingSpaces(s) < |s| - TrailingSpaces(s)
  {
    var a, b := LeadingSpaces(s), |s| - TrailingSpaces(s);
    assert forall j :: b <= j < |s| ==> IsJsSpace(s[j]) by {
      forall j | b <= j < |s| ensures IsJsSpace(s[j]) { assert s[j] == s[b..][j - b]; }
    }
  }

  /** A string trims to empty exactly when every character is whitespace. */
  lemma TrimEmptyIff(s: string)
    ensures Trim(s) == [] <==> AllSpace(s)
  {
    var a := LeadingSpaces(s);
    TrimBounds(s);
    if a < |s| {
      assert s[a..|s| - TrailingSpaces(s)][0] == s[a];
    } else {
      assert s[..a] == s;
    }
  }

  /** A trimmed string neither starts nor ends with whitespace and is a piece of the input. */
  lemma TrimShape(s: string)
    ensures Trim(s) != [] ==> !IsJsSpace(Trim(s)[0]) && !IsJsSpace(Trim(s)[|Trim(s)| - 1])
    ensures |Trim(s)| <= |s|
    ensures Trim(s) == s[LeadingSpaces(s)..LeadingSpaces(s) + |Trim(s)|]
  {
    TrimBounds(s);
    var a := LeadingSpaces(s);
    if a < |s| {
      var b := |s| - TrailingSpaces(s);
      var t := s[a..b];
      assert Trim(s) == t;
      assert t[0] == s[a] && t[|t| - 1] == s[b - 1];
    }
  }

  function LowerChar(c: char): char {
    if 'A' <= c <= 'Z' then (c as int + 32) as char else c
  }

  /** `s.toLowerCase()` on the ASCII letters. */
  function ToLower(s: string): (r: string)
    ensures |r| == |s|
    ensures forall i :: 0 <= i < |s| ==> r[i] == LowerChar(s[i])
  {
    if s == [] then [] else [LowerChar(s[0])] + ToLower(s[1..])
  }

  lemma ToLowerIdempotent(s: string)
    ensures ToLower(ToLower(s)) == ToLower(s)
  {
  }
}
