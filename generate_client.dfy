/**
 * `generateClient`: register a Google Reviews place under a fresh client id
 * in the file-backed registry and answer with the embed snippet.
 */
module GenerateClient {
  import opened JsText
  import opened ClientRegistry

  /** The JSON body; each field may be absent, null or a string. */
  datatype GenerateRequest = GenerateRequest(placeId: JsValue, placeName: JsValue, themeColor: JsValue, widgetSize: JsValue)

  datatype GenerateResponse = Generated(clientId: string, embedCode: string) | Rejected(status: int, error: string)

  const DefaultThemeColor: string := "teal"
  const DefaultWidgetSize: string := "medium"

  /** The record stored for an accepted request: the four body fields, with destructuring defaults for the last two. */
  function StoredData(req: GenerateRequest): (d: ClientData)
    ensures d.placeId == req.placeId && d.placeName == req.placeName
    ensures req.themeColor.Undefined? ==> d.themeColor == Str(DefaultThemeColor)
    ensures !req.themeColor.Undefined? ==> d.themeColor == req.themeColor
    ensures req.widgetSize.Undefined? ==> d.widgetSize == Str(DefaultWidgetSize)
    ensures !req.widgetSize.Undefined? ==> d.widgetSize == req.widgetSize
  {
    ClientData(req.placeId, req.placeName,
               DefaultIfUndefined(req.themeColor, DefaultThemeColor),
               DefaultIfUndefined(req.widgetSize, DefaultWidgetSize))
  }

  /**
   * An empty theme colour is kept as it is here, whereas the `||` defaulting
   * of the WhatsApp store replaces an empty field by its default.
   */
  lemma EmptyThemeColorKept(req: GenerateRequest)
    requires req.themeColor == Str("")
    ensures StoredData(req).themeColor == Str("")
    ensures JsOr(req.themeColor, DefaultThemeColor) == DefaultThemeColor
  {
  }

  function ClientIdAttribute(clientId: string): string {
    "data-client-id=\"" + clientId + "\""
  }

  function ScriptSource(baseUrl: string, clientId: string): string {
    "<script src=\"" + baseUrl + "/api/google/widget/" + clientId + ".js\""
  }

  function EmbedCode(baseUrl: string, clientId: string): string {
    "\n    <div id=\"google-reviews\" " + ClientIdAttribute(clientId) + " data-backend-url=\"" + baseUrl
      + "\"></div>\n    " + ScriptSource(baseUrl, clientId) + " async></script>\n  "
  }

  /** The snippet carries the client id as `data-client-id`. */
  lemma EmbedCarriesClientId(baseUrl: string, clientId: string)
    ensures Contains(EmbedCode(baseUrl, clientId), "data-client-id=\"" + clientId + "\"")
  {
    var a := "\n    <div id=\"google-reviews\" ";
    var b := " data-backend-url=\"" + baseUrl + "\"></div>\n    " + ScriptSource(baseUrl, clientId) + " async></script>\n  ";
    assert EmbedCode(baseUrl, clientId) == a + ClientIdAttribute(clientId) + b;
    ContainsInfix(a, ClientIdAttribute(clientId), b);
  }

  /** The snippet loads `<base>/api/google/widget/<id>.js`. */
  lemma EmbedLoadsClientScript(baseUrl: string, clientId: string)
    ensures Contains(EmbedCode(baseUrl, clientId), "<script src=\"" + baseUrl + "/api/google/widget/" + clientId + ".js\"")
  {
    var a := "\n    <div id=\"google-reviews\" " + ClientIdAttribute(clientId) + " data-backend-url=\"" + baseUrl + "\"></div>\n    ";
    var b := " async></script>\n  ";
    assert EmbedCode(baseUrl, clientId) == a + ScriptSource(baseUrl, clientId) + b;
    ContainsInfix(a, ScriptSource(baseUrl, clientId), b);
  }

  /**
   * The handler. `freshId` is the uuid drawn for this call and `writeOk`
   * whether the file write succeeded; a failed write is only logged, so the
   * answer is the same either way.
   */
  method Generate(manager: FileClientManager, req: GenerateRequest, freshId: string, baseUrl: string, writeOk: bool)
    returns (resp: GenerateResponse)
    modifies manager, manager.clients
    ensures manager.clients == old(manager.clients)
    ensures !JsTruthy(req.placeId) || !JsTruthy(req.placeName) ==>
      && resp == Rejected(400, "placeId and placeName are required")
      && manager.clients.entries == old(manager.clients.entries) && manager.file == old(manager.file)
    ensures JsTruthy(req.placeId) && JsTruthy(req.placeName) ==>
      && resp == Generated(freshId, EmbedCode(baseUrl, freshId))
      && manager.clients.entries == old(manager.clients.entries)[freshId := StoredData(req)]
      && manager.file == (if writeOk then manager.clients.entries else old(manager.file))
  {
    if !JsTruthy(req.placeId) || !JsTruthy(req.placeName) {
      return Rejected(400, "placeId and placeName are required");
    }
    manager.SetClient(freshId, StoredData(req));
    manager.SaveClients(writeOk);
    resp := Generated(freshId, EmbedCode(baseUrl, freshId));
  }
}
