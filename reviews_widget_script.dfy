/**
 * The server side of the two Google Reviews `widget.js` handlers: the 404
 * body, how configuration values reach the generated script (verbatim in one
 * handler, through the `safe*` values in the other), and the size class and
 * search query the generated script computes from them.
 */
module ReviewsWidgetScript {
  import opened Wrappers
  import opened JsText
  import ClientRegistry

  /** The 404 body: a script that logs the unknown id, interpolated verbatim. */
  function NotFoundBody(clientId: string): (body: string)
    ensures Contains(body, clientId)
  {
    var pre := "console.error(\"Configuration not found for clientId:\", \"";
    ContainsInfix(pre, clientId, "\");");
    pre + clientId + "\");"
  }

  /** The `widget` handler's outcome for a client id and the table it looked in. */
  datatype WidgetResponse = NotFound(status: int, body: string) | ScriptFor(config: ClientRegistry.ClientData)

  function Respond(clients: map<string, ClientRegistry.ClientData>, clientId: string): (r: WidgetResponse)
    ensures r.NotFound? <==> clientId !in clients
    ensures r.NotFound? ==> r.status == 404 && r.body == NotFoundBody(clientId)
    ensures r.ScriptFor? ==> r.config == clients[clientId]
  {
    if clientId in clients then ScriptFor(clients[clientId]) else NotFound(404, NotFoundBody(clientId))
  }

  /** `BACKEND_URL` in the generated script: the raw handler interpolates `BASE_URL` as is, the other falls back to a default. */
  function BackendUrlRaw(baseUrl: Option<string>): string { Interp(baseUrl) }

  function BackendUrlSafe(baseUrl: Option<string>): (u: string)
    ensures u != []
  {
    Or(baseUrl, "https://default-backend.com")
  }

  // Size classes

  /** `WIDGET_SIZE_CLASSES[key]`; `large` differs between the two handlers. */
  function SizeClass(key: string, largeClass: string): (c: Option<string>)
    ensures c.Some? <==> key == "small" || key == "medium" || key == "large"
    ensures key == "large" ==> c == Some(largeClass)
  {
    if key == "small" then Some("max-w-sm")
    else if key == "medium" then Some("max-w-md")
    else if key == "large" then Some(largeClass)
    else None
  }

  const RawLargeClass := "max-w-lg"
  const SafeLargeClass := "max-w-lg xl:max-w-2xl"

  /**
   * `WIDGET_SIZE_CLASSES['<literal>'] || 'max-w-md'` of the sanitized script
   * (lines 232 and 268): None when the literal does not read back, since the
   * value then no longer stays inside it.
   */
  function SizeClassOf(sizeLiteral: string): (c: Option<string>)
    ensures c.Some? <==> Unquote(sizeLiteral).Some?
    ensures c.Some? ==> c.value in {"max-w-sm", "max-w-md", SafeLargeClass}
  {
    match Unquote(sizeLiteral)
    case None => None
    case Some(key) => Some(SizeClass(key, SafeLargeClass).GetOr("max-w-md"))
  }

  /** `safeWidgetSize`: the configured size, or `medium` when it is falsy. */
  function SafeWidgetSize(widgetSize: JsValue): (k: string)
    ensures JsTruthy(widgetSize) ==> k == widgetSize.s
    ensures !JsTruthy(widgetSize) ==> k == "medium"
  {
    JsOr(widgetSize, "medium")
  }

  /** The sanitized script's size class as written: the size goes into its literal unescaped. */
  function SafeSizeClass(widgetSize: JsValue): (c: Option<string>)
    ensures Plain(SafeWidgetSize(widgetSize)) ==>
      c == Some(SizeClass(SafeWidgetSize(widgetSize), SafeLargeClass).GetOr("max-w-md"))
    ensures c.Some? ==> c.value in {"max-w-sm", "max-w-md", SafeLargeClass}
  {
    PlainUnquote(SafeWidgetSize(widgetSize));
    SizeClassOf(SafeWidgetSize(widgetSize))
  }

  /** The expression lines 232 and 268 generate around the size's literal text. */
  function SizeLookupCode(sizeLiteral: string): string {
    "WIDGET_SIZE_CLASSES['" + sizeLiteral + "'] || 'max-w-md'"
  }

  /**
   * As written, a size holding quotes rewrites the generated expression: the
   * size `x'] || 'evil' || WIDGET_SIZE_CLASSES['y` turns it into a chain whose
   * value is `evil`, since `WIDGET_SIZE_CLASSES['x']` is undefined. The size's
   * literal no longer reads back, so the model yields no size class.
   */
  lemma SizeInjection(key: string, injected: string, key2: string)
    requires key != [] && Plain(key)
    ensures var size := key + "'] || '" + injected + "' || WIDGET_SIZE_CLASSES['" + key2;
      && SizeLookupCode(SafeWidgetSize(Str(size))) ==
         "WIDGET_SIZE_CLASSES['" + key + "'] || '" + injected + "' || WIDGET_SIZE_CLASSES['" + key2 + "'] || 'max-w-md'"
      && SafeSizeClass(Str(size)) == None
  {
    var post := "] || '" + injected + "' || WIDGET_SIZE_CLASSES['" + key2;
    var size := key + "'] || '" + injected + "' || WIDGET_SIZE_CLASSES['" + key2;
    assert size == key + "'" + post;
    QuoteStopsUnquote(key, post);
  }

  /** With the size escaped as the place id should be, every size gives one of the three classes, the one its key names. */
  function EscapedSizeClass(widgetSize: JsValue): (c: string)
    ensures c in {"max-w-sm", "max-w-md", SafeLargeClass}
    ensures c == SizeClass(SafeWidgetSize(widgetSize), SafeLargeClass).GetOr("max-w-md")
  {
    EscapeForLiteralRoundTrip(SafeWidgetSize(widgetSize));
    SizeClassOf(EscapeForLiteral(SafeWidgetSize(widgetSize))).value
  }

  /** A missing size is `undefined` in the raw handler's class list and `max-w-md` in the other's. */
  lemma MissingSizeClasses(lits: RawLiterals)
    requires lits.widgetSize == JsInterp(Undefined) && RawScriptParses(lits)
    ensures RawSizeClass(lits) == Some("undefined")
    ensures SafeSizeClass(Undefined) == Some("max-w-md")
  {
    assert Plain("medium");
  }

  /** The two handlers agree on the known sizes except `large`. */
  lemma KnownSizesAgree(lits: RawLiterals, widgetSize: string)
    requires widgetSize == "small" || widgetSize == "medium"
    requires lits.widgetSize == widgetSize && RawScriptParses(lits)
    ensures RawSizeClass(lits) == SafeSizeClass(Str(widgetSize))
  {
    assert Plain(widgetSize);
    PlainUnquote(widgetSize);
  }

  // Theme colour

  /** `s.replace(/[^a-zA-Z0-9]/g, '')`. */
  function KeepAlnum(s: string): (r: string)
    ensures |r| <= |s|
    ensures forall i :: 0 <= i < |r| ==> IsAsciiAlnum(r[i])
    ensures (forall i :: 0 <= i < |s| ==> IsAsciiAlnum(s[i])) ==> r == s
  {
    if s == [] then []
    else if IsAsciiAlnum(s[0]) then [s[0]] + KeepAlnum(s[1..])
    else KeepAlnum(s[1..])
  }

  /** Removing the other characters keeps every letter and digit, in order. */
  lemma {:induction false} KeepAlnumAppend(s: string, t: string)
    ensures KeepAlnum(s + t) == KeepAlnum(s) + KeepAlnum(t)
  {
    if s == [] {
      assert s + t == t;
    } else {
      assert (s + t)[0] == s[0];
      assert (s + t)[1..] == s[1..] + t;
      KeepAlnumAppend(s[1..], t);
    }
  }

  /** A character that is not a letter or digit is always removed. */
  lemma {:induction false} KeepAlnumDropsOthers(s: string, k: nat)
    requires k < |s| && !IsAsciiAlnum(s[k])
    ensures |KeepAlnum(s)| < |s|
  {
    if k > 0 {
      KeepAlnumDropsOthers(s[1..], k - 1);
    }
  }

  /** `safeThemeColor`: `(themeColor || 'blue')` with every character other than a letter or digit removed. */
  function SafeThemeColor(themeColor: JsValue): (c: string)
    ensures forall i :: 0 <= i < |c| ==> IsAsciiAlnum(c[i])
    ensures !JsTruthy(themeColor) ==> c == "blue"
    ensures JsTruthy(themeColor) ==> c == KeepAlnum(themeColor.s)
  {
    assert forall i :: 0 <= i < 4 ==> IsAsciiAlnum("blue"[i]);
    KeepAlnum(JsOr(themeColor, "blue"))
  }

  // JavaScript single-quoted string literals

  /** The character a backslash escape stands for, for the escapes this model decodes. */
  function EscapedChar(c: char): Option<char> {
    if c == '\\' then Some('\\')
    else if c == '\'' then Some('\'')
    else if c == 'n' then Some('\n')
    else if c == 'r' then Some('\r')
    else None
  }

  /**
   * The value of `'t'` when `t` is placed between single quotes in the
   * script: None when `t` ends the literal early (an unescaped `'`), holds a
   * raw line break, ends on a lone backslash, or uses an escape other than
   * `\\`, `\'`, `\n` and `\r`.
   */
  function Unquote(t: string): Option<string>
    decreases |t|
  {
    if t == [] then Some([])
    else if t[0] == '\'' || t[0] == '\n' || t[0] == '\r' then None
    else if t[0] == '\\' then
      if |t| < 2 || EscapedChar(t[1]).None? then None
      else
        match Unquote(t[2..])
        case None => None
        case Some(rest) => Some([EscapedChar(t[1]).value] + rest)
    else
      match Unquote(t[1..])
      case None => None
      case Some(rest) => Some([t[0]] + rest)
  }

  /** `s.replace(/'/g, "\\'")`, the escaping of `safePlaceId` and `safeClientId`. */
  function EscapeQuotes(s: string): (r: string)
    ensures |r| >= |s|
    ensures (forall i :: 0 <= i < |s| ==> s[i] != '\'') ==> r == s
  {
    if s == [] then []
    else (if s[0] == '\'' then "\\'" else [s[0]]) + EscapeQuotes(s[1..])
  }

  /**
   * As written, escaping quotes alone does not keep a value inside its
   * literal: a value starting with a backslash and a quote (such as
   * `\');alert(1);//`) becomes backslash, backslash, quote, so the added
   * backslash is itself escaped and the quote closes the literal.
   */
  lemma EscapeQuotesBreaksLiteral(rest: string)
    ensures Unquote(EscapeQuotes("\\'" + rest)) == None
  {
    var s := "\\'" + rest;
    assert s[0] == '\\' && s[1..][0] == '\'' && s[1..][1..] == rest;
    assert EscapeQuotes(s[1..]) == "\\'" + EscapeQuotes(rest);
    var t := EscapeQuotes(s);
    assert t == "\\" + "\\'" + EscapeQuotes(rest);
    assert t[0] == '\\' && t[1] == '\\' && t[2..][0] == '\'';
  }

  /** A line break in the value is copied as is and ends the script's literal too. */
  lemma EscapeQuotesKeepsLineBreak(rest: string)
    ensures Unquote(EscapeQuotes("\n" + rest)) == None
  {
    var s := "\n" + rest;
    assert s[0] == '\n' && s[1..] == rest;
    assert EscapeQuotes(s)[0] == '\n';
  }

  /** The escape that keeps any value inside a single-quoted literal: backslashes first, then quotes and line breaks. */
  function EscapeChar(c: char): (e: string)
    ensures 1 <= |e| <= 2
  {
    if c == '\\' then "\\\\"
    else if c == '\'' then "\\'"
    else if c == '\n' then "\\n"
    else if c == '\r' then "\\r"
    else [c]
  }

  function EscapeForLiteral(s: string): string {
    if s == [] then [] else EscapeChar(s[0]) + EscapeForLiteral(s[1..])
  }

  /** Any value, escaped this way and placed between quotes, reads back as itself. */
  lemma {:induction false} EscapeForLiteralRoundTrip(s: string)
    ensures Unquote(EscapeForLiteral(s)) == Some(s)
  {
    if s != [] {
      EscapeForLiteralRoundTrip(s[1..]);
      EscapeCharReadsBack(s[0], EscapeForLiteral(s[1..]));
      assert s == [s[0]] + s[1..];
    }
  }

  /** One escaped character in front of a literal that reads back reads back as that character. */
  lemma EscapeCharReadsBack(c: char, rest: string)
    requires Unquote(rest).Some?
    ensures Unquote(EscapeChar(c) + rest) == Some([c] + Unquote(rest).value)
  {
    var t := EscapeChar(c) + rest;
    if |EscapeChar(c)| == 2 {
      assert t[0] == '\\' && t[2..] == rest;
      assert EscapedChar(t[1]) == Some(c);
    } else {
      assert t[0] == c && t[1..] == rest;
    }
  }

  /** On values without backslashes or line breaks the corrected escape is the one written. */
  lemma {:induction false} EscapeForLiteralExtendsEscapeQuotes(s: string)
    requires forall i :: 0 <= i < |s| ==> s[i] != '\\' && s[i] != '\n' && s[i] != '\r'
    ensures EscapeForLiteral(s) == EscapeQuotes(s)
  {
    if s != [] {
      EscapeForLiteralExtendsEscapeQuotes(s[1..]);
    }
  }

  /** `safePlaceId` with the corrected escape. */
  function SafePlaceId(placeId: JsValue): string {
    EscapeForLiteral(JsOr(placeId, ""))
  }

  /**
   * The start-up test `if ('${safePlaceId}')`: None when the literal does not
   * read back (the script no longer does what it was written to do), else
   * whether it is truthy.
   */
  function PlaceIdTest(placeIdLiteral: string): (r: Option<bool>)
    ensures r.Some? <==> Unquote(placeIdLiteral).Some?
    ensures r.Some? ==> (r.value <==> Unquote(placeIdLiteral).value != [])
  {
    match Unquote(placeIdLiteral)
    case None => None
    case Some(v) => Some(v != [])
  }

  /**
   * The sanitized script's start-up, given the texts in the literals of its
   * size lookups and its place-id test: None when one of them does not read
   * back, since the script then does not run as written; else whether it
   * fetches the place.
   */
  function SafeScriptFetches(sizeLiteral: string, placeIdLiteral: string): (r: Option<bool>)
    ensures r.Some? <==> Unquote(sizeLiteral).Some? && Unquote(placeIdLiteral).Some?
    ensures r.Some? ==> (r.value <==> Unquote(placeIdLiteral).value != [])
  {
    if Unquote(sizeLiteral).None? then None else PlaceIdTest(placeIdLiteral)
  }

  /** With the place id escaped as corrected and a plain size, the script fetches exactly when a place id is configured. */
  lemma SafeScriptFetchesIffPlaceId(placeId: JsValue, widgetSize: JsValue)
    requires Plain(SafeWidgetSize(widgetSize))
    ensures SafeScriptFetches(SafeWidgetSize(widgetSize), SafePlaceId(placeId)) == Some(JsTruthy(placeId))
  {
    PlainUnquote(SafeWidgetSize(widgetSize));
    EscapeForLiteralRoundTrip(JsOr(placeId, ""));
  }

  /**
   * With the place id escaped as line 17 writes it (quotes only), the same
   * holds for every id without backslashes or line breaks, quotes included.
   */
  lemma WrittenScriptFetchesIffPlaceId(placeId: JsValue, widgetSize: JsValue)
    requires Plain(SafeWidgetSize(widgetSize))
    requires var id := JsOr(placeId, ""); forall i :: 0 <= i < |id| ==> id[i] != '\\' && id[i] != '\n' && id[i] != '\r'
    ensures SafeScriptFetches(SafeWidgetSize(widgetSize), EscapeQuotes(JsOr(placeId, ""))) == Some(JsTruthy(placeId))
  {
    EscapeForLiteralExtendsEscapeQuotes(JsOr(placeId, ""));
    SafeScriptFetchesIffPlaceId(placeId, widgetSize);
  }

  /** As written, a size holding a quote stops the script, whatever the place id. */
  lemma QuotedSizeStopsScript(placeId: JsValue, pre: string, post: string)
    requires Plain(pre)
    ensures SafeScriptFetches(SafeWidgetSize(Str(pre + "'" + post)), SafePlaceId(placeId)) == None
  {
    QuoteStopsUnquote(pre, post);
  }

  /** With both values escaped as corrected, the script fetches exactly when a place id is configured, whatever the size. */
  lemma EscapedScriptFetchesIffPlaceId(placeId: JsValue, widgetSize: JsValue)
    ensures SafeScriptFetches(EscapeForLiteral(SafeWidgetSize(widgetSize)), SafePlaceId(placeId)) == Some(JsTruthy(placeId))
  {
    EscapeForLiteralRoundTrip(SafeWidgetSize(widgetSize));
    EscapeForLiteralRoundTrip(JsOr(placeId, ""));
  }

  // Reading literals back

  /** No character that ends, breaks or escapes inside a single-quoted literal. */
  predicate Plain(t: string) {
    forall i :: 0 <= i < |t| ==> t[i] != '\'' && t[i] != '\\' && t[i] != '\n' && t[i] != '\r'
  }

  /** A plain text reads back as itself. */
  lemma {:induction false} PlainUnquote(t: string)
    ensures Plain(t) ==> Unquote(t) == Some(t)
  {
    if t != [] && Plain(t) {
      PlainUnquote(t[1..]);
      assert t == [t[0]] + t[1..];
    }
  }

  lemma PlainAppend(a: string, b: string)
    requires Plain(a) && Plain(b)
    ensures Plain(a + b)
  {
    forall i | 0 <= i < |a + b|
      ensures (a + b)[i] != '\'' && (a + b)[i] != '\\' && (a + b)[i] != '\n' && (a + b)[i] != '\r'
    {
      if i >= |a| {
        assert (a + b)[i] == b[i - |a|];
      }
    }
  }

  /** A plain text in front of a literal's content is read back as itself. */
  lemma {:induction false} PlainPrefixUnquote(p: string, t: string)
    requires Plain(p)
    ensures Unquote(p + t) == (if Unquote(t).Some? then Some(p + Unquote(t).value) else None)
  {
    if p == [] {
      assert p + t == t;
      if Unquote(t).Some? {
        assert p + Unquote(t).value == Unquote(t).value;
      }
    } else {
      PlainPrefixUnquote(p[1..], t);
      assert (p + t)[0] == p[0] && (p + t)[1..] == p[1..] + t;
      if Unquote(t).Some? {
        assert p + Unquote(t).value == [p[0]] + (p[1..] + Unquote(t).value);
      }
    }
  }

  /** Two contents that each read back read back one after the other. */
  lemma {:induction false} UnquoteAppend(t: string, u: string)
    requires Unquote(t).Some? && Unquote(u).Some?
    ensures Unquote(t + u) == Some(Unquote(t).value + Unquote(u).value)
    decreases |t|
  {
    var v := Unquote(u).value;
    if t == [] {
      assert t + u == u;
      assert Unquote(t).value + v == v;
    } else {
      var n := if t[0] == '\\' then 2 else 1;
      var head := t[..n];
      var rest := t[n..];
      assert t == head + rest;
      assert t + u == head + (rest + u);
      UnquoteCons(head, rest);
      UnquoteAppend(rest, u);
      UnquoteCons(head, rest + u);
      var c := Unquote(head).value;
      assert c + (Unquote(rest).value + v) == (c + Unquote(rest).value) + v;
    }
  }

  /** One character or escape that reads back, in front of a content: the two read back one after the other. */
  lemma UnquoteCons(head: string, rest: string)
    requires |head| == 1 || (|head| == 2 && head[0] == '\\')
    requires Unquote(head).Some?
    ensures Unquote(head + rest) == (if Unquote(rest).Some? then Some(Unquote(head).value + Unquote(rest).value) else None)
  {
    if |head| == 2 {
      UnquoteConsEscape(head[1], rest);
      assert head == ['\\', head[1]];
    } else {
      UnquoteConsChar(head[0], rest);
      assert head == [head[0]];
    }
  }

  lemma UnquoteConsEscape(c: char, rest: string)
    requires EscapedChar(c).Some?
    ensures Unquote(['\\', c]) == Some([EscapedChar(c).value])
    ensures Unquote(['\\', c] + rest) == (if Unquote(rest).Some? then Some([EscapedChar(c).value] + Unquote(rest).value) else None)
  {
    var t := ['\\', c] + rest;
    assert t[0] == '\\' && t[1] == c && t[2..] == rest;
    assert ['\\', c][2..] == [];
    assert Unquote(['\\', c][2..]) == Some([]);
    assert [EscapedChar(c).value] + [] == [EscapedChar(c).value];
  }

  lemma UnquoteConsChar(c: char, rest: string)
    requires c != '\\' && c != '\'' && c != '\n' && c != '\r'
    ensures Unquote([c]) == Some([c])
    ensures Unquote([c] + rest) == (if Unquote(rest).Some? then Some([c] + Unquote(rest).value) else None)
  {
    var t := [c] + rest;
    assert t[0] == c && t[1..] == rest;
    assert [c][1..] == [];
    assert Unquote([c][1..]) == Some([]);
    assert [c] + [] == [c];
  }

  /** A content that does not read back still does not when followed by text that cannot complete an escape. */
  lemma {:induction false} UnquoteAppendFails(t: string, u: string)
    requires Unquote(t).None?
    requires u != [] ==> EscapedChar(u[0]).None?
    ensures Unquote(t + u).None?
    decreases |t|
  {
    assert (t + u)[0] == t[0];
    if t[0] == '\\' {
      if |t| < 2 {
        if u == [] {
          assert t + u == t;
        } else {
          assert (t + u)[1] == u[0];
        }
      } else {
        assert (t + u)[1] == t[1];
        if EscapedChar(t[1]).Some? {
          UnquoteAppendFails(t[2..], u);
          assert (t + u)[2..] == t[2..] + u;
        }
      }
    } else if t[0] != '\'' && t[0] != '\n' && t[0] != '\r' {
      UnquoteAppendFails(t[1..], u);
      assert (t + u)[1..] == t[1..] + u;
    }
  }

  /** A quote after a plain text ends the literal early. */
  lemma QuoteStopsUnquote(pre: string, post: string)
    requires Plain(pre)
    ensures Unquote(pre + "'" + post) == None
  {
    assert pre + "'" + post == pre + ("'" + post);
    PlainPrefixUnquote(pre, "'" + post);
  }

  // The raw handler's literals

  /**
   * The texts the raw handler puts between single quotes, each as it appears
   * in the generated script: the theme colour inside the class text and the
   * size key (line 212), the place id and the place name (line 425).
   */
  datatype RawLiterals = RawLiterals(themeColor: string, widgetSize: string, placeId: string, placeName: string)

  /** As written: every value interpolated verbatim. */
  function AsWrittenLiterals(config: ClientRegistry.ClientData): RawLiterals {
    RawLiterals(JsInterp(config.themeColor), JsInterp(config.widgetSize), JsInterp(config.placeId), JsInterp(config.placeName))
  }

  /** Corrected: every value escaped for its literal. */
  function EscapedLiterals(config: ClientRegistry.ClientData): RawLiterals {
    RawLiterals(EscapeForLiteral(JsInterp(config.themeColor)), EscapeForLiteral(JsInterp(config.widgetSize)),
                EscapeForLiteral(JsInterp(config.placeId)), EscapeForLiteral(JsInterp(config.placeName)))
  }

  const RawClassHead := "google-reviews-widget p-6" + " bg-gradient-to-br from-"
  const RawClassTail := "-50 to-white rounded-2xl " + "shadow-xl transition-all" + " duration-300 "

  /** The content of the class-text literal on line 212. */
  function RawClassText(themeColor: string): string {
    RawClassHead + themeColor + RawClassTail
  }

  /** The class text reads back exactly when the theme colour does. */
  lemma RawClassTextReadsBack(themeColor: string)
    ensures Unquote(RawClassText(themeColor)).Some? <==> Unquote(themeColor).Some?
  {
    assert Plain("google-reviews-widget p-6") && Plain(" bg-gradient-to-br from-");
    PlainAppend("google-reviews-widget p-6", " bg-gradient-to-br from-");
    assert Plain("-50 to-white rounded-2xl ") && Plain("shadow-xl transition-all") && Plain(" duration-300 ");
    PlainAppend("-50 to-white rounded-2xl ", "shadow-xl transition-all");
    PlainAppend("-50 to-white rounded-2xl " + "shadow-xl transition-all", " duration-300 ");
    PlainUnquote(RawClassTail);
    assert RawClassText(themeColor) == RawClassHead + (themeColor + RawClassTail);
    PlainPrefixUnquote(RawClassHead, themeColor + RawClassTail);
    if Unquote(themeColor).Some? {
      UnquoteAppend(themeColor, RawClassTail);
    } else {
      assert EscapedChar(RawClassTail[0]).None?;
      UnquoteAppendFails(themeColor, RawClassTail);
    }
  }

  /**
   * Every literal of the raw script that holds a configuration value reads
   * back. One that does not makes the whole generated script a syntax error,
   * or changes what it says, so nothing runs as written.
   */
  predicate RawScriptParses(lits: RawLiterals) {
    && Unquote(RawClassText(lits.themeColor)).Some?
    && Unquote(lits.widgetSize).Some?
    && Unquote(lits.placeId).Some?
    && Unquote("place_id:" + lits.placeId).Some?
    && Unquote(lits.placeName).Some?
  }

  /** The raw script runs exactly when each of the four texts reads back on its own. */
  lemma RawScriptParsesIff(lits: RawLiterals)
    ensures RawScriptParses(lits) <==>
      (&& Unquote(lits.themeColor).Some? && Unquote(lits.widgetSize).Some?
       && Unquote(lits.placeId).Some? && Unquote(lits.placeName).Some?)
  {
    RawClassTextReadsBack(lits.themeColor);
    assert Plain("place_id:");
    PlainPrefixUnquote("place_id:", lits.placeId);
  }

  /**
   * The class the raw script's `render` appends, `WIDGET_SIZE_CLASSES['${widgetSize}']`
   * with no fallback: None when the script does not run.
   */
  function RawSizeClass(lits: RawLiterals): (c: Option<string>)
    ensures c.Some? <==> RawScriptParses(lits)
    ensures c.Some? && SizeClass(Unquote(lits.widgetSize).value, RawLargeClass).None? ==> c.value == "undefined"
  {
    if !RawScriptParses(lits) then None
    else Some(Interp(SizeClass(Unquote(lits.widgetSize).value, RawLargeClass)))
  }

  /**
   * `'${config.placeId}' ? 'place_id:${config.placeId}' : '${config.placeName}'`
   * on line 425: None when the script does not run.
   */
  function RawQuery(lits: RawLiterals): Option<string> {
    if !RawScriptParses(lits) then None
    else if Unquote(lits.placeId).value != [] then Unquote("place_id:" + lits.placeId)
    else Unquote(lits.placeName)
  }

  /**
   * A query exists exactly when the script runs; it is then `place_id:` and
   * the place id the literal holds when that is non-empty, else the place name.
   */
  lemma RawQueryMeaning(lits: RawLiterals)
    ensures RawQuery(lits).Some? <==> RawScriptParses(lits)
    ensures RawScriptParses(lits) && Unquote(lits.placeId).value != [] ==>
      RawQuery(lits) == Some("place_id:" + Unquote(lits.placeId).value)
    ensures RawScriptParses(lits) && Unquote(lits.placeId).value == [] ==>
      RawQuery(lits) == Unquote(lits.placeName)
  {
    assert Plain("place_id:");
    PlainPrefixUnquote("place_id:", lits.placeId);
  }

  /** As written, a place name holding a quote stops the raw script, whatever the place id. */
  lemma RawNameQuoteStopsScript(config: ClientRegistry.ClientData, pre: string, post: string)
    requires config.placeName == Str(pre + "'" + post) && Plain(pre)
    ensures RawQuery(AsWrittenLiterals(config)) == None
  {
    QuoteStopsUnquote(pre, post);
  }

  /**
   * With every value escaped as corrected, the raw script always runs and
   * computes its query from the values themselves. The query only decides
   * whether the fetch starts: `fetchPlace` asks for the reviews by client id.
   */
  lemma EscapedRawQuery(config: ClientRegistry.ClientData)
    ensures RawQuery(EscapedLiterals(config)) ==
      Some(if JsInterp(config.placeId) != [] then "place_id:" + JsInterp(config.placeId) else JsInterp(config.placeName))
    ensures RawQuery(EscapedLiterals(config)).value != [] <==> JsInterp(config.placeId) != [] || JsInterp(config.placeName) != []
  {
    var lits := EscapedLiterals(config);
    EscapeForLiteralRoundTrip(JsInterp(config.themeColor));
    EscapeForLiteralRoundTrip(JsInterp(config.widgetSize));
    EscapeForLiteralRoundTrip(JsInterp(config.placeId));
    EscapeForLiteralRoundTrip(JsInterp(config.placeName));
    RawScriptParsesIff(lits);
    RawQueryMeaning(lits);
  }

  /** Plain values keep the raw script running. */
  lemma PlainConfigRuns(config: ClientRegistry.ClientData)
    requires Plain(JsInterp(config.themeColor)) && Plain(JsInterp(config.widgetSize))
    requires Plain(JsInterp(config.placeId)) && Plain(JsInterp(config.placeName))
    ensures RawScriptParses(AsWrittenLiterals(config))
  {
    PlainUnquote(JsInterp(config.themeColor));
    PlainUnquote(JsInterp(config.widgetSize));
    PlainUnquote(JsInterp(config.placeId));
    PlainUnquote(JsInterp(config.placeName));
    RawScriptParsesIff(AsWrittenLiterals(config));
  }

  /** With plain values, a non-empty place id gives the query `place_id:<id>`. */
  lemma RawQueryUsesPlaceId(config: ClientRegistry.ClientData)
    requires config.placeId.Str? && config.placeId.s != [] && Plain(config.placeId.s)
    requires Plain(JsInterp(config.themeColor)) && Plain(JsInterp(config.widgetSize)) && Plain(JsInterp(config.placeName))
    ensures RawQuery(AsWrittenLiterals(config)) == Some("place_id:" + config.placeId.s)
  {
    PlainConfigRuns(config);
    RawQueryMeaning(AsWrittenLiterals(config));
    PlainUnquote(config.placeId.s);
  }

  /** A client without a place id interpolates `undefined`, which is truthy: with plain values the place name is never used. */
  lemma RawQueryIgnoresNameWithoutId(config: ClientRegistry.ClientData)
    requires config.placeId.Undefined?
    requires Plain(JsInterp(config.themeColor)) && Plain(JsInterp(config.widgetSize)) && Plain(JsInterp(config.placeName))
    ensures JsInterp(config.placeId) == "undefined"
    ensures RawQuery(AsWrittenLiterals(config)) == Some("place_id:" + JsInterp(config.placeId))
  {
    var id := JsInterp(config.placeId);
    assert Plain(id);
    PlainConfigRuns(config);
    RawQueryMeaning(AsWrittenLiterals(config));
    PlainUnquote(id);
  }

  /** Only an empty place id string falls through to the place name. */
  lemma RawQueryFallsBackToName(config: ClientRegistry.ClientData, name: string)
    requires config.placeId == Str("") && config.placeName == Str(name) && Plain(name)
    requires Plain(JsInterp(config.themeColor)) && Plain(JsInterp(config.widgetSize))
    ensures RawQuery(AsWrittenLiterals(config)) == Some(name)
  {
    PlainConfigRuns(config);
    RawQueryMeaning(AsWrittenLiterals(config));
    PlainUnquote(name);
  }
}
