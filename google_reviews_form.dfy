/**
 * The Google Reviews widget builder: the client-side id generator, the
 * autocomplete guard, the form's field state, the save guard, and the query
 * the preview searches for.
 */
module GoogleReviewsForm {
  import opened Wrappers
  import opened JsText

  // generateClientId

  /** One `(Math.random() * 16) | 0` draw. */
  type Nibble = r: int | 0 <= r < 16

  const Template: string := "xxxxxxxx-xxxx-4xxx-yxxx-xxxxxxxxxxxx"
  const HexDigits: string := "0123456789abcdef"

  /** `v.toString(16)` for a single hex digit. */
  function HexDigit(v: Nibble): (c: char)
    ensures IsLowerHex(c)
  {
    HexDigits[v]
  }

  /** The `y` position's value: `(r & 0x3) | 0x8`. */
  function VariantNibble(r: Nibble): (v: Nibble)
    ensures 8 <= v <= 11 && v == r % 4 + 8
  {
    assert (r as bv8) & 3 == (r % 4) as bv8;
    ((((r as bv8) & 3) | 8) as int)
  }

  /**
   * `generateClientId`: every `x` and `y` of the template is replaced using
   * the draw made for that position (`draw(i)` for template position `i`).
   */
  function GenerateClientId(draw: nat -> Nibble): string {
    seq(|Template|, i requires 0 <= i < |Template| =>
      if Template[i] == 'x' then HexDigit(draw(i))
      else if Template[i] == 'y' then HexDigit(VariantNibble(draw(i)))
      else Template[i])
  }

  predicate IsHyphenPosition(i: int) { i == 8 || i == 13 || i == 18 || i == 23 }

  /**
   * The version-4 layout of section 4.4 of RFC 4122: 36 characters,
   * hyphens at 8, 13, 18 and 23, the version digit `4` at 14 (section 4.1.3),
   * the variant digit at 19 one of `8`, `9`, `a`, `b` (section 4.1.1), and
   * lower-case hex everywhere else.
   */
  predicate UuidV4Shape(s: string) {
    && |s| == 36
    && (forall i :: 0 <= i < 36 && IsHyphenPosition(i) ==> s[i] == '-')
    && s[14] == '4'
    && s[19] in {'8', '9', 'a', 'b'}
    && (forall i :: 0 <= i < 36 && !IsHyphenPosition(i) ==> IsLowerHex(s[i]))
  }

  lemma TemplateLayout()
    ensures |Template| == 36
    ensures forall i :: 0 <= i < 36 ==> (Template[i] == '-' <==> IsHyphenPosition(i))
    ensures forall i :: 0 <= i < 36 ==> (Template[i] == 'y' <==> i == 19)
    ensures forall i :: 0 <= i < 36 ==> Template[i] in {'x', 'y', '-', '4'}
    ensures forall i :: 0 <= i < 36 ==> (Template[i] == '4' <==> i == 14)
  {
  }

  /** Every generated id has the version-4 layout. */
  lemma GeneratedIdIsV4(draw: nat -> Nibble)
    ensures UuidV4Shape(GenerateClientId(draw))
  {
    TemplateLayout();
    var s := GenerateClientId(draw);
    assert s[19] == HexDigit(VariantNibble(draw(19)));
    forall i | 0 <= i < 36 && !IsHyphenPosition(i)
      ensures IsLowerHex(s[i])
    {
      if Template[i] == '4' {
        assert s[i] == '4';
      } else if Template[i] == 'x' {
        assert s[i] == HexDigit(draw(i));
      } else {
        assert s[i] == HexDigit(VariantNibble(draw(i)));
      }
    }
  }

  /** The value of a lower-case hex digit. */
  function HexValue(c: char): (v: Nibble)
    requires IsLowerHex(c)
    ensures HexDigit(v) == c
  {
    if '0' <= c <= '9' then (c as int - '0' as int) else (c as int - 'a' as int + 10)
  }

  /** The draw that reproduces character `i` of a given id. */
  function DrawFor(s: string, i: nat): Nibble {
    if i < |s| && IsLowerHex(s[i]) then
      var v := HexValue(s[i]);
      if i == 19 && v >= 8 then v - 8 else v
    else 0
  }

  /** Conversely, every string of that layout is generated by some sequence of draws. */
  lemma EveryV4IdCanBeGenerated(s: string)
    requires UuidV4Shape(s)
    ensures exists draw: nat -> Nibble :: GenerateClientId(draw) == s
  {
    TemplateLayout();
    var draw: nat -> Nibble := i => DrawFor(s, i);
    assert 8 <= HexValue(s[19]) <= 11;
    var g := GenerateClientId(draw);
    forall i | 0 <= i < 36
      ensures g[i] == s[i]
    {
      if i == 19 {
        assert VariantNibble(draw(19)) == HexValue(s[19]);
      }
    }
  }

  // Autocomplete guard

  predicate SuggestionChar(c: char) { IsAsciiAlnum(c) || IsJsSpace(c) }

  /** `fetchSuggestions` sends a request only for an input of at least 2 characters, all letters, digits or spaces. */
  function SuggestionsWanted(input: string): (b: bool)
    ensures b <==> |input| >= 2 && forall i :: 0 <= i < |input| ==> SuggestionChar(input[i])
  {
    input != [] && |input| >= 2 && forall i :: 0 <= i < |input| ==> SuggestionChar(input[i])
  }

  /** A single punctuation mark anywhere stops the request. */
  lemma PunctuationBlocksSuggestions(a: string, b: string)
    ensures !SuggestionsWanted(a + "'" + b)
  {
    assert (a + "'" + b)[|a|] == '\'';
  }

  // The form

  /** A form value: text inputs hold strings, the checkbox a flag. */
  datatype FieldValue = Text(s: string) | Flag(b: bool)

  function Lookup(config: map<string, FieldValue>, name: string): Option<FieldValue> {
    if name in config then Some(config[name]) else None
  }

  predicate ValueTruthy(v: Option<FieldValue>) {
    v.Some? && (if v.value.Text? then v.value.s != [] else v.value.b)
  }

  /** Template interpolation of a form value. */
  function ValueText(v: Option<FieldValue>): string {
    match v
    case None => "undefined"
    case Some(Text(s)) => s
    case Some(Flag(b)) => if b then "true" else "false"
  }

  function InitialConfig(): (m: map<string, FieldValue>)
    ensures m.Keys == {"placeName", "placeId", "enableSearch", "themeColor", "widgetSize", "error"}
    ensures m["placeName"] == Text("") && m["placeId"] == Text("") && m["enableSearch"] == Flag(false)
    ensures m["themeColor"] == Text("teal") && m["widgetSize"] == Text("medium") && m["error"] == Text("")
  {
    map["placeName" := Text(""), "placeId" := Text(""), "enableSearch" := Flag(false),
        "themeColor" := Text("teal"), "widgetSize" := Text("medium"), "error" := Text("")]
  }

  /** The query the preview searches for: `place_id:<id>` when an id is set, else the name. */
  function SearchQuery(config: map<string, FieldValue>): (q: string)
    ensures ValueTruthy(Lookup(config, "placeId")) ==> q == "place_id:" + ValueText(Lookup(config, "placeId"))
    ensures !ValueTruthy(Lookup(config, "placeId")) ==> q == ValueText(Lookup(config, "placeName"))
  {
    if ValueTruthy(Lookup(config, "placeId")) then "place_id:" + ValueText(Lookup(config, "placeId"))
    else ValueText(Lookup(config, "placeName"))
  }

  /** A set place id always produces a `place_id:` query, which the server takes without a text search. */
  lemma QueryWithIdIsPrefixed(config: map<string, FieldValue>)
    requires ValueTruthy(Lookup(config, "placeId"))
    ensures StartsWith(SearchQuery(config), "place_id:")
  {
    var q := SearchQuery(config);
    assert q[..9] == "place_id:";
  }

  const RequiredError := "Place ID and Place Name are required"

  /** The generate-client request's result. */
  datatype SaveReply = SaveOk(clientId: string) | SaveFailed(serverError: Option<string>, message: string)

  /** A suggestion the autocomplete returned. */
  datatype Suggestion = Suggestion(description: string, placeId: string)

  datatype SuggestReply = SuggestOk(items: seq<Suggestion>) | SuggestFailed(serverError: Option<string>)

  class ConfigForm {
    var config: map<string, FieldValue>
    var suggestions: seq<Suggestion>
    var showSuggestions: bool
    var autoSave: bool
    var inputValue: string
    var activeTab: string
    var clientId: string
    var error: string

    constructor ()
      ensures config == InitialConfig() && suggestions == [] && !showSuggestions && !autoSave
      ensures inputValue == "" && activeTab == "settings" && clientId == "" && error == ""
    {
      config := InitialConfig();
      suggestions := [];
      showSuggestions := false;
      autoSave := false;
      inputValue := "";
      activeTab := "settings";
      clientId := "";
      error := "";
    }

    /** `fetchSuggestions`: the guard clears the list and sends nothing; otherwise the reply fills it or records the error. */
    method FetchSuggestions(input: string, reply: SuggestReply) returns (requested: bool)
      modifies this
      ensures requested == SuggestionsWanted(input)
      ensures !requested ==> suggestions == [] && !showSuggestions && config == old(config)
      ensures requested && reply.SuggestOk? ==> suggestions == reply.items && showSuggestions && config == old(config)
      ensures requested && reply.SuggestFailed? ==>
        suggestions == [] && !showSuggestions
        && config == old(config)["error" := Text(Or(reply.serverError, "Failed to fetch autocomplete suggestions"))]
      ensures autoSave == old(autoSave) && inputValue == old(inputValue) && activeTab == old(activeTab)
      ensures clientId == old(clientId) && error == old(error)
    {
      if !SuggestionsWanted(input) {
        suggestions := [];
        showSuggestions := false;
        return false;
      }
      requested := true;
      match reply
      case SuggestOk(items) =>
        suggestions := items;
        showSuggestions := true;
      case SuggestFailed(serverError) =>
        suggestions := [];
        showSuggestions := false;
        config := config["error" := Text(Or(serverError, "Failed to fetch autocomplete suggestions"))];
    }

    /**
     * `handleChange`: only the named field is set, to `checked` for the
     * checkbox and to the text otherwise; with auto-save on, a change to any
     * field but the place name also submits.
     */
    method HandleChange(name: string, value: string, isCheckbox: bool, checked: bool) returns (submits: bool)
      modifies this
      ensures config == old(config)[name := if isCheckbox then Flag(checked) else Text(value)]
      ensures forall k :: k in old(config) && k != name ==> k in config && config[k] == old(config)[k]
      ensures submits <==> autoSave && name != "placeName"
      ensures suggestions == old(suggestions) && showSuggestions == old(showSuggestions) && autoSave == old(autoSave)
      ensures inputValue == old(inputValue) && activeTab == old(activeTab) && clientId == old(clientId) && error == old(error)
    {
      config := config[name := if isCheckbox then Flag(checked) else Text(value)];
      submits := autoSave && name != "placeName";
    }

    /** `resetForm`: the starting values, no suggestions, auto-save off, the settings tab. */
    method ResetForm()
      modifies this
      ensures config == InitialConfig() && inputValue == "" && suggestions == [] && !showSuggestions && !autoSave
      ensures activeTab == "settings" && clientId == old(clientId) && error == old(error)
    {
      config := InitialConfig();
      inputValue := "";
      suggestions := [];
      showSuggestions := false;
      autoSave := false;
      activeTab := "settings";
    }

    /**
     * `saveConfig`: a missing place id or name fails before any request with
     * the required-fields message; otherwise the reply's client id is kept,
     * or its error recorded.
     */
    method SaveConfig(reply: SaveReply) returns (success: bool, posted: bool)
      modifies this
      ensures posted <==> ValueTruthy(Lookup(old(config), "placeId")) && ValueTruthy(Lookup(old(config), "placeName"))
      ensures success <==> posted && reply.SaveOk?
      ensures success ==> clientId == reply.clientId && error == old(error) && config == old(config)
      ensures !posted ==> error == RequiredError && config == old(config)["error" := Text(RequiredError)] && clientId == old(clientId)
      ensures posted && reply.SaveFailed? ==>
        var message := Or(reply.serverError, Or(Some(reply.message), "Failed to save configuration. Please try again."));
        error == message && config == old(config)["error" := Text(message)] && clientId == old(clientId)
      ensures suggestions == old(suggestions) && showSuggestions == old(showSuggestions) && autoSave == old(autoSave)
      ensures inputValue == old(inputValue) && activeTab == old(activeTab)
    {
      if !ValueTruthy(Lookup(config, "placeId")) || !ValueTruthy(Lookup(config, "placeName")) {
        error := RequiredError;
        config := config["error" := Text(RequiredError)];
        return false, false;
      }
      posted := true;
      match reply
      case SaveOk(id) =>
        clientId := id;
        success := true;
      case SaveFailed(serverError, message) =>
        var text := Or(serverError, Or(Some(message), "Failed to save configuration. Please try again."));
        error := text;
        config := config["error" := Text(text)];
        success := false;
    }

    /** `handleSubmit`: save, switch to the code tab on success, then search for the form's query whatever the save did. */
    method HandleSubmit(reply: SaveReply) returns (success: bool, query: string)
      modifies this
      ensures query == SearchQuery(old(config))
      ensures success <==> ValueTruthy(Lookup(old(config), "placeId")) && ValueTruthy(Lookup(old(config), "placeName")) && reply.SaveOk?
      ensures success ==> activeTab == "code" && clientId == reply.clientId && error == old(error) && config == old(config)
      ensures !success ==> activeTab == old(activeTab) && clientId == old(clientId)
      ensures !(ValueTruthy(Lookup(old(config), "placeId")) && ValueTruthy(Lookup(old(config), "placeName"))) ==>
        error == RequiredError && config == old(config)["error" := Text(RequiredError)]
      ensures ValueTruthy(Lookup(old(config), "placeId")) && ValueTruthy(Lookup(old(config), "placeName")) && reply.SaveFailed? ==>
        var message := Or(reply.serverError, Or(Some(reply.message), "Failed to save configuration. Please try again."));
        error == message && config == old(config)["error" := Text(message)]
      ensures suggestions == old(suggestions) && showSuggestions == old(showSuggestions) && autoSave == old(autoSave)
      ensures inputValue == old(inputValue)
    {
      query := SearchQuery(config);
      var posted;
      success, posted := SaveConfig(reply);
      if success {
        activeTab := "code";
      }
    }

    /** `handleSuggestionSelect`: the name and id come from the suggestion, the error is cleared, and the place is searched by id. */
    method HandleSuggestionSelect(suggestion: Suggestion) returns (query: string)
      modifies this
      ensures config == old(config)["placeName" := Text(suggestion.description)]["placeId" := Text(suggestion.placeId)]["error" := Text("")]
      ensures query == "place_id:" + suggestion.placeId
      ensures suggestions == old(suggestions) && showSuggestions == old(showSuggestions) && autoSave == old(autoSave)
      ensures inputValue == old(inputValue) && activeTab == old(activeTab) && clientId == old(clientId) && error == old(error)
    {
      config := config["placeName" := Text(suggestion.description)]["placeId" := Text(suggestion.placeId)]["error" := Text("")];
      query := "place_id:" + suggestion.placeId;
    }

    /**
     * `handleSuggestionClick`: the search box shows the suggestion's text,
     * the selection is applied, and the suggestion list is hidden.
     */
    method HandleSuggestionClick(suggestion: Suggestion) returns (query: string)
      modifies this
      ensures config == old(config)["placeName" := Text(suggestion.description)]["placeId" := Text(suggestion.placeId)]["error" := Text("")]
      ensures query == "place_id:" + suggestion.placeId
      ensures inputValue == suggestion.description && !showSuggestions
      ensures suggestions == old(suggestions) && autoSave == old(autoSave) && activeTab == old(activeTab)
      ensures clientId == old(clientId) && error == old(error)
    {
      inputValue := suggestion.description;
      query := HandleSuggestionSelect(suggestion);
      showSuggestions := false;
    }
  }

  /** After a selection with a non-empty id, submitting searches for the same query the selection did. */
  lemma SelectThenSubmitSameQuery(config: map<string, FieldValue>, suggestion: Suggestion)
    requires suggestion.placeId != []
    ensures SearchQuery(config["placeName" := Text(suggestion.description)]["placeId" := Text(suggestion.placeId)]["error" := Text("")])
            == "place_id:" + suggestion.placeId
  {
    var c := config["placeName" := Text(suggestion.description)]["placeId" := Text(suggestion.placeId)]["error" := Text("")];
    assert Lookup(c, "placeId") == Some(Text(suggestion.placeId));
  }
}
