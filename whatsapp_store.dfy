/**
 * The file-backed WhatsApp widget store: `createWidget` (validate the phone,
 * fill defaults, update a record in place or append a new one, answer with
 * an embed snippet), `getWidget` (look up and make the greeting image URL
 * absolute) and the request handling in front of the served widget script.
 */
module WhatsAppStore {
  import opened Wrappers
  import opened JsText
  import opened WhatsAppConfig
  import opened WidgetSchema

  /** The form fields of a save request; `None` is a field not sent. `upload` is the stored name of an uploaded image. */
  datatype CreateRequest = CreateRequest(
    phoneNumber: Option<string>,
    welcomeMessage: Option<string>,
    buttonColor: Option<string>,
    position: Option<string>,
    widgetId: Option<string>,
    agentName: Option<string>,
    replyTime: Option<string>,
    greetingMessage: Option<string>,
    upload: Option<string>)

  /** The same fields after `sanitizeInput`. */
  datatype Sanitized = Sanitized(
    phoneNumber: Option<string>,
    welcomeMessage: Option<string>,
    buttonColor: Option<string>,
    position: Option<string>,
    widgetId: Option<string>,
    agentName: Option<string>,
    replyTime: Option<string>,
    greetingMessage: Option<string>)

  datatype CreateResponse = Saved(widgetId: string, embedCode: string) | Failed(status: int, error: string)

  /**
   * What one save request decides: the list to write back (`None`: nothing
   * is written), the answer, and the image handed to `deleteOldImage`.
   */
  datatype CreateOutcome = CreateOutcome(written: Option<seq<WidgetRecord>>, response: CreateResponse, deletedImage: Option<string>)

  datatype GetResponse = Found(widget: WidgetRecord) | NotFound(status: int, error: string)

  datatype ScriptResponse =
    | JsonError(status: int, error: string)
    | Script(contentType: string, containerId: string, configUrl: string)

  /** `sanitizeInput`: the sanitiser on strings, the identity on an undefined field. */
  function SanitizeField(sanitize: string -> string, v: Option<string>): (r: Option<string>)
    ensures r.None? <==> v.None?
  {
    if v.Some? then Some(sanitize(v.value)) else None
  }

  function SanitizeRequest(sanitize: string -> string, req: CreateRequest): Sanitized {
    Sanitized(
      SanitizeField(sanitize, req.phoneNumber), SanitizeField(sanitize, req.welcomeMessage),
      SanitizeField(sanitize, req.buttonColor), SanitizeField(sanitize, req.position),
      SanitizeField(sanitize, req.widgetId), SanitizeField(sanitize, req.agentName),
      SanitizeField(sanitize, req.replyTime), SanitizeField(sanitize, req.greetingMessage))
  }

  function UploadUrl(baseUrl: string, filename: string): string {
    baseUrl + "/Uploads/" + filename
  }

  function ContainerId(id: string): string {
    "whatsapp-widget-" + id
  }

  function EmbedCode(baseUrl: string, id: string): string {
    "<div id=\"" + ContainerId(id) + "\"></div>\n<script src=\"" + baseUrl
      + "/api/whatsapp/widget.js?widgetId=" + id + "\" defer></script>"
  }

  /** `widgets.findIndex(w => w.widgetId === id)`: the first matching index, or -1. */
  function FindIndex(ws: seq<WidgetRecord>, id: string): (r: int)
    ensures -1 <= r < |ws|
    ensures r == -1 <==> forall i :: 0 <= i < |ws| ==> ws[i].widgetId != id
    ensures r >= 0 ==> ws[r].widgetId == id && forall j :: 0 <= j < r ==> ws[j].widgetId != id
  {
    if ws == [] then -1
    else if ws[0].widgetId == id then 0
    else
      var r := FindIndex(ws[1..], id);
      assert forall i :: 1 <= i < |ws| ==> ws[i] == ws[1..][i - 1];
      if r == -1 then -1 else r + 1
  }

  /** The six text fields a save reassigns, each taken from the request or, when empty, from its default. */
  predicate FieldsFilledFrom(r: WidgetRecord, s: Sanitized) {
    && Some(r.phoneNumber) == s.phoneNumber
    && r.welcomeMessage == Or(s.welcomeMessage, DefaultWelcomeMessage)
    && r.buttonColor == Or(s.buttonColor, DefaultButtonColor)
    && r.position == Or(s.position, DefaultPosition)
    && r.agentName == Or(s.agentName, DefaultAgentName)
    && r.replyTime == Or(s.replyTime, DefaultReplyTime)
    && r.greetingMessage == Some(Or(s.greetingMessage, DefaultGreetingMessage))
  }

  /** What every record a save writes satisfies: a valid phone and no empty text field. */
  predicate RecordFilled(r: WidgetRecord) {
    && PhonePattern(r.phoneNumber)
    && r.welcomeMessage != [] && r.buttonColor != [] && r.position != []
    && r.agentName != [] && r.replyTime != [] && Truthy(r.greetingMessage)
  }

  predicate StoreFilled(ws: seq<WidgetRecord>) {
    forall i :: 0 <= i < |ws| ==> RecordFilled(ws[i])
  }

  function ImageAfterSave(upload: Option<string>, baseUrl: string, previous: Option<string>): Option<string> {
    if upload.Some? then Some(UploadUrl(baseUrl, upload.value)) else previous
  }

  /** `{...old, phoneNumber, welcomeMessage: ... || DEFAULT, ...}`. */
  function Reassigned(w: WidgetRecord, s: Sanitized, upload: Option<string>, baseUrl: string): (r: WidgetRecord)
    requires s.phoneNumber.Some?
    ensures FieldsFilledFrom(r, s)
  {
    w.(phoneNumber := s.phoneNumber.value,
       welcomeMessage := Or(s.welcomeMessage, DefaultWelcomeMessage),
       buttonColor := Or(s.buttonColor, DefaultButtonColor),
       position := Or(s.position, DefaultPosition),
       agentName := Or(s.agentName, DefaultAgentName),
       replyTime := Or(s.replyTime, DefaultReplyTime),
       greetingMessage := Some(Or(s.greetingMessage, DefaultGreetingMessage)),
       greetingImage := ImageAfterSave(upload, baseUrl, w.greetingImage))
  }

  /** A record filled from a request whose phone passed the pattern satisfies `RecordFilled`. */
  lemma FilledRecordIsFilled(r: WidgetRecord, s: Sanitized)
    requires FieldsFilledFrom(r, s) && PhoneRegexTest(Interp(s.phoneNumber))
    ensures RecordFilled(r)
  {
  }

  /** The whole decision of `createWidget`, on the list `ws` that `readWidgets` returned. */
  function CreateWidgetSpec(ws: seq<WidgetRecord>, req: CreateRequest, sanitize: string -> string,
                            baseUrl: string, freshId: string, now: string): (o: CreateOutcome)
    ensures var s := SanitizeRequest(sanitize, req);
      !PhoneRegexTest(Interp(s.phoneNumber)) ==> o == CreateOutcome(None, Failed(400, "Invalid phone number format"), None)
    ensures var s := SanitizeRequest(sanitize, req);
      PhoneRegexTest(Interp(s.phoneNumber)) && Truthy(s.widgetId) && FindIndex(ws, s.widgetId.value) == -1
      ==> o == CreateOutcome(None, Failed(404, "Widget not found"), None)
    ensures o.written.None? ==> o.response.Failed? && o.deletedImage.None?
    ensures o.written.Some? ==>
      && o.response.Saved?
      && o.response.embedCode == EmbedCode(baseUrl, o.response.widgetId)
      && PhoneRegexTest(Interp(SanitizeRequest(sanitize, req).phoneNumber))
    // An update rewrites the matched record only, keeping its id and creation time.
    ensures var s := SanitizeRequest(sanitize, req);
      PhoneRegexTest(Interp(s.phoneNumber)) && Truthy(s.widgetId) && FindIndex(ws, s.widgetId.value) >= 0
      ==> var k := FindIndex(ws, s.widgetId.value);
          && o.written.Some? && |o.written.value| == |ws|
          && (forall j :: 0 <= j < |ws| && j != k ==> o.written.value[j] == ws[j])
          && o.written.value[k].widgetId == ws[k].widgetId
          && o.written.value[k].createdAt == ws[k].createdAt
          && FieldsFilledFrom(o.written.value[k], s)
          && o.written.value[k].greetingImage == ImageAfterSave(req.upload, baseUrl, ws[k].greetingImage)
          && o.response.widgetId == ws[k].widgetId
          && (o.deletedImage.Some? <==> req.upload.Some? && Truthy(ws[k].greetingImage))
          && (o.deletedImage.Some? ==> o.deletedImage == ws[k].greetingImage)
    // A create appends exactly one record under the fresh id.
    ensures var s := SanitizeRequest(sanitize, req);
      PhoneRegexTest(Interp(s.phoneNumber)) && !Truthy(s.widgetId)
      ==> && o.written.Some? && |o.written.value| == |ws| + 1 && o.written.value[..|ws|] == ws
          && o.written.value[|ws|].widgetId == freshId
          && o.written.value[|ws|].createdAt == now
          && FieldsFilledFrom(o.written.value[|ws|], s)
          && o.written.value[|ws|].greetingImage == ImageAfterSave(req.upload, baseUrl, None)
          && o.response.widgetId == freshId
          && o.deletedImage.None?
  {
    var s := SanitizeRequest(sanitize, req);
    if !PhoneRegexTest(Interp(s.phoneNumber)) then
      CreateOutcome(None, Failed(400, "Invalid phone number format"), None)
    else if Truthy(s.widgetId) then
      var k := FindIndex(ws, s.widgetId.value);
      if k == -1 then
        CreateOutcome(None, Failed(404, "Widget not found"), None)
      else
        var oldImage := ws[k].greetingImage;
        var w := Reassigned(ws[k], s, req.upload, baseUrl);
        var deleted := if req.upload.Some? && Truthy(oldImage) then oldImage else None;
        CreateOutcome(Some(ws[k := w]), Saved(w.widgetId, EmbedCode(baseUrl, w.widgetId)), deleted)
    else
      var w := WidgetRecord(freshId, s.phoneNumber.value,
        Or(s.welcomeMessage, DefaultWelcomeMessage), Or(s.buttonColor, DefaultButtonColor),
        Or(s.position, DefaultPosition), Or(s.agentName, DefaultAgentName),
        Or(s.replyTime, DefaultReplyTime), Some(Or(s.greetingMessage, DefaultGreetingMessage)),
        ImageAfterSave(req.upload, baseUrl, None), now);
      CreateOutcome(Some(ws + [w]), Saved(freshId, EmbedCode(baseUrl, freshId)), None)
  }

  /**
   * A save keeps the store's invariants: ids stay unique (given a fresh id
   * not yet in the list) and every record stays filled.
   */
  lemma {:induction false} CreatePreservesInvariants(ws: seq<WidgetRecord>, req: CreateRequest, sanitize: string -> string,
                                                      baseUrl: string, freshId: string, now: string)
    requires IdsUnique(ws) && StoreFilled(ws)
    requires forall i :: 0 <= i < |ws| ==> ws[i].widgetId != freshId
    ensures var o := CreateWidgetSpec(ws, req, sanitize, baseUrl, freshId, now);
      o.written.Some? ==> IdsUnique(o.written.value) && StoreFilled(o.written.value)
  {
    var o := CreateWidgetSpec(ws, req, sanitize, baseUrl, freshId, now);
    var s := SanitizeRequest(sanitize, req);
    if o.written.Some? {
      var w := o.written.value;
      if Truthy(s.widgetId) {
        var k := FindIndex(ws, s.widgetId.value);
        FilledRecordIsFilled(w[k], s);
        forall i | 0 <= i < |w| ensures w[i].widgetId == ws[i].widgetId && RecordFilled(w[i]) {
        }
      } else {
        FilledRecordIsFilled(w[|ws|], s);
        forall i | 0 <= i < |w| ensures RecordFilled(w[i]) {
          if i < |ws| { assert w[i] == w[..|ws|][i]; }
        }
        forall i, j | 0 <= i < j < |w| ensures w[i].widgetId != w[j].widgetId {
          assert w[i] == w[..|ws|][i];
          if j < |ws| { assert w[j] == w[..|ws|][j]; }
        }
      }
    }
  }

  /** Saving the same update twice writes the same list as saving it once. */
  lemma {:induction false} UpdateIdempotent(ws: seq<WidgetRecord>, req: CreateRequest, sanitize: string -> string,
                                             baseUrl: string, freshId: string, now: string)
    requires Truthy(SanitizeRequest(sanitize, req).widgetId)
    requires CreateWidgetSpec(ws, req, sanitize, baseUrl, freshId, now).written.Some?
    ensures var w1 := CreateWidgetSpec(ws, req, sanitize, baseUrl, freshId, now).written.value;
      CreateWidgetSpec(w1, req, sanitize, baseUrl, freshId, now).written == Some(w1)
  {
    var s := SanitizeRequest(sanitize, req);
    var id := s.widgetId.value;
    var k := FindIndex(ws, id);
    var w1 := CreateWidgetSpec(ws, req, sanitize, baseUrl, freshId, now).written.value;
    assert FindIndex(w1, id) == k by {
      assert forall j :: 0 <= j < k ==> w1[j] == ws[j];
    }
    var w2 := CreateWidgetSpec(w1, req, sanitize, baseUrl, freshId, now).written.value;
    assert w2[k] == w1[k];
    assert w2 == w1;
  }

  /** After a failed read the list is empty, so a new widget replaces every stored one when written back. */
  lemma ReadFailureCreateKeepsOnlyNew(req: CreateRequest, sanitize: string -> string, baseUrl: string, freshId: string, now: string)
    requires PhoneRegexTest(Interp(SanitizeRequest(sanitize, req).phoneNumber))
    requires !Truthy(SanitizeRequest(sanitize, req).widgetId)
    ensures var o := CreateWidgetSpec([], req, sanitize, baseUrl, freshId, now);
      o.written.Some? && |o.written.value| == 1 && o.written.value[0].widgetId == freshId
  {
    var o := CreateWidgetSpec([], req, sanitize, baseUrl, freshId, now);
    assert |o.written.value| == 1;
  }

  /**
   * The record `getWidget` answers with: a non-empty greeting image that does
   * not start with `http` gets the base URL in front; everything else is kept.
   */
  function Absolutised(w: WidgetRecord, baseUrl: string): (r: WidgetRecord)
    ensures r.(greetingImage := w.greetingImage) == w
    ensures Truthy(w.greetingImage) && !StartsWith(w.greetingImage.value, "http")
      ==> r.greetingImage == Some(baseUrl + w.greetingImage.value)
    ensures !Truthy(w.greetingImage) || StartsWith(w.greetingImage.value, "http") ==> r == w
  {
    if Truthy(w.greetingImage) && !StartsWith(w.greetingImage.value, "http") then
      w.(greetingImage := Some(baseUrl + w.greetingImage.value))
    else
      w
  }

  /** Making an image URL absolute twice changes nothing more when the base URL starts with `http`. */
  lemma AbsolutisedIdempotent(w: WidgetRecord, baseUrl: string)
    requires StartsWith(baseUrl, "http")
    ensures Absolutised(Absolutised(w, baseUrl), baseUrl) == Absolutised(w, baseUrl)
  {
    if Truthy(w.greetingImage) && !StartsWith(w.greetingImage.value, "http") {
      assert (baseUrl + w.greetingImage.value)[..4] == baseUrl[..4];
    }
  }

  /** The embed snippet names the container that the served script looks up. */
  lemma EmbedNamesContainer(baseUrl: string, id: string)
    ensures Contains(EmbedCode(baseUrl, id), "id=\"" + ContainerId(id) + "\"")
  {
    var e := EmbedCode(baseUrl, id);
    var t1 := "id=\"" + ContainerId(id) + "\"";
    var rest := "></div>\n<script src=\"" + baseUrl + "/api/whatsapp/widget.js?widgetId=" + id + "\" defer></script>";
    assert e == "<div " + t1 + rest;
    ContainsInfix("<div ", t1, rest);
  }

  /** The embed snippet loads the script with the widget's id in its query. */
  lemma EmbedLoadsScript(baseUrl: string, id: string)
    ensures Contains(EmbedCode(baseUrl, id), "widget.js?widgetId=" + id)
  {
    var e := EmbedCode(baseUrl, id);
    var pre := "<div id=\"" + ContainerId(id) + "\"></div>\n<script src=\"" + baseUrl + "/api/whatsapp/";
    var t2 := "widget.js?widgetId=" + id;
    assert e == pre + t2 + "\" defer></script>";
    ContainsInfix(pre, t2, "\" defer></script>");
  }

  /** The widget list kept in `whatsapp.json`. */
  class WidgetStore {
    var widgets: seq<WidgetRecord>

    predicate Valid()
      reads this
    {
      IdsUnique(widgets) && StoreFilled(widgets)
    }

    constructor (initial: seq<WidgetRecord>)
      ensures widgets == initial
    {
      widgets := initial;
    }

    /**
     * `createWidget`. `readOk` says whether `readWidgets` could read the
     * file (a failed read yields an empty list); `writeOk` whether
     * `writeWidgets` succeeded (a failure answers 500). The old image is
     * deleted before the write, so it is gone even when the write fails.
     */
    method CreateWidget(req: CreateRequest, sanitize: string -> string, baseUrl: string, freshId: string,
                        now: string, readOk: bool, writeOk: bool)
      returns (resp: CreateResponse, deletedImage: Option<string>)
      modifies this
      ensures var o := CreateWidgetSpec(if readOk then old(widgets) else [], req, sanitize, baseUrl, freshId, now);
        && deletedImage == o.deletedImage
        && (o.written.Some? && writeOk ==> widgets == o.written.value && resp == o.response)
        && (o.written.Some? && !writeOk ==> widgets == old(widgets) && resp == Failed(500, "Failed to save widget"))
        && (o.written.None? ==> widgets == old(widgets) && resp == o.response)
      ensures old(Valid()) && (forall i :: 0 <= i < |old(widgets)| ==> old(widgets)[i].widgetId != freshId) ==> Valid()
    {
      var s := SanitizeRequest(sanitize, req);
      ghost var ws0 := if readOk then widgets else [];
      ghost var o := CreateWidgetSpec(ws0, req, sanitize, baseUrl, freshId, now);
      if !PhoneRegexTest(Interp(s.phoneNumber)) {
        return Failed(400, "Invalid phone number format"), None;
      }
      var ws := if readOk then widgets else [];
      if Valid() && forall i :: 0 <= i < |widgets| ==> widgets[i].widgetId != freshId {
        CreatePreservesInvariants(ws, req, sanitize, baseUrl, freshId, now);
      }
      var id: string;
      deletedImage := None;
      if Truthy(s.widgetId) {
        var index := FindIndex(ws, s.widgetId.value);
        if index == -1 {
          return Failed(404, "Widget not found"), None;
        }
        var oldImage := ws[index].greetingImage;
        var w := Reassigned(ws[index], s, req.upload, baseUrl);
        if req.upload.Some? && Truthy(oldImage) {
          deletedImage := oldImage;
        }
        ws := ws[index := w];
        id := w.widgetId;
      } else {
        var w := WidgetRecord(freshId, s.phoneNumber.value,
          Or(s.welcomeMessage, DefaultWelcomeMessage), Or(s.buttonColor, DefaultButtonColor),
          Or(s.position, DefaultPosition), Or(s.agentName, DefaultAgentName),
          Or(s.replyTime, DefaultReplyTime), Some(Or(s.greetingMessage, DefaultGreetingMessage)),
          ImageAfterSave(req.upload, baseUrl, None), now);
        ws := ws + [w];
        id := freshId;
      }
      if !writeOk {
        return Failed(500, "Failed to save widget"), deletedImage;
      }
      widgets := ws;
      resp := Saved(id, EmbedCode(baseUrl, id));
    }

    /** `getWidget`: the first record with the sanitized id, its image URL made absolute; the list is only read. */
    method GetWidget(rawId: string, sanitize: string -> string, baseUrl: string, readOk: bool) returns (resp: GetResponse)
      ensures var ws := if readOk then widgets else [];
        && (resp.NotFound? <==> forall i :: 0 <= i < |ws| ==> ws[i].widgetId != sanitize(rawId))
        && (resp.NotFound? ==> resp == NotFound(404, "Widget not found"))
        && (resp.Found? ==> exists k :: 0 <= k < |ws| && ws[k].widgetId == sanitize(rawId)
                               && (forall j :: 0 <= j < k ==> ws[j].widgetId != sanitize(rawId))
                               && resp.widget == Absolutised(ws[k], baseUrl))
    {
      var ws := if readOk then widgets else [];
      var id := sanitize(rawId);
      var k := FindIndex(ws, id);
      if k == -1 {
        return NotFound(404, "Widget not found");
      }
      var w := ws[k];
      if Truthy(w.greetingImage) && !StartsWith(w.greetingImage.value, "http") {
        w := w.(greetingImage := Some(baseUrl + w.greetingImage.value));
      }
      resp := Found(w);
    }

    /** The request handling in front of `widget.js`: 400 without an id, 404 for an unknown one, else the script. */
    method ServeWidgetScript(rawId: Option<string>, sanitize: string -> string, baseUrl: string, readOk: bool)
      returns (resp: ScriptResponse)
      ensures var id := SanitizeField(sanitize, rawId);
        var ws := if readOk then widgets else [];
        && (!Truthy(id) ==> resp == JsonError(400, "Widget ID is required"))
        && (Truthy(id) && (forall i :: 0 <= i < |ws| ==> ws[i].widgetId != id.value) ==> resp == JsonError(404, "Widget not found"))
        && (resp.Script? <==> Truthy(id) && exists i :: 0 <= i < |ws| && ws[i].widgetId == id.value)
        && (resp.Script? ==> resp == Script("application/javascript", ContainerId(id.value),
                                            baseUrl + "/api/whatsapp/widgets/" + id.value))
    {
      var id := SanitizeField(sanitize, rawId);
      if !Truthy(id) {
        return JsonError(400, "Widget ID is required");
      }
      var ws := if readOk then widgets else [];
      var k := FindIndex(ws, id.value);
      if k == -1 {
        return JsonError(404, "Widget not found");
      }
      resp := Script("application/javascript", ContainerId(id.value), baseUrl + "/api/whatsapp/widgets/" + id.value);
    }
  }

  /** A widget just saved is found again by its id, and the served script's container is the one its snippet declares. */
  lemma {:induction false} SavedWidgetIsServed(ws: seq<WidgetRecord>, req: CreateRequest, sanitize: string -> string,
                                                baseUrl: string, freshId: string, now: string)
    requires CreateWidgetSpec(ws, req, sanitize, baseUrl, freshId, now).written.Some?
    ensures var o := CreateWidgetSpec(ws, req, sanitize, baseUrl, freshId, now);
      FindIndex(o.written.value, o.response.widgetId) >= 0
      && Contains(o.response.embedCode, "id=\"" + ContainerId(o.response.widgetId) + "\"")
  {
    var o := CreateWidgetSpec(ws, req, sanitize, baseUrl, freshId, now);
    var s := SanitizeRequest(sanitize, req);
    if Truthy(s.widgetId) {
      var k := FindIndex(ws, s.widgetId.value);
      assert o.written.value[k].widgetId == o.response.widgetId;
    } else {
      assert o.written.value[|ws|].widgetId == o.response.widgetId;
    }
    EmbedNamesContainer(baseUrl, o.response.widgetId);
  }
}
