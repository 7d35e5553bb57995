/**
 * The WhatsApp widget record and the document schema of the `widgets`
 * collection: required paths, the unique `widgetId` index and the defaults
 * filled in for paths left undefined.
 */
module WidgetSchema {
  import opened Wrappers
  import opened JsText

  /** One widget configuration; `None` stands for `null`. */
  datatype WidgetRecord = WidgetRecord(
    widgetId: string,
    phoneNumber: string,
    welcomeMessage: string,
    buttonColor: string,
    position: string,
    agentName: string,
    replyTime: string,
    greetingMessage: Option<string>,
    greetingImage: Option<string>,
    createdAt: string)

  /** The paths given to `new Widget({...})`; `None` is a path left undefined. */
  datatype WidgetFields = WidgetFields(
    widgetId: Option<string>,
    phoneNumber: Option<string>,
    welcomeMessage: Option<string>,
    buttonColor: Option<string>,
    position: Option<string>,
    agentName: Option<string>,
    replyTime: Option<string>,
    greetingMessage: Option<string>,
    greetingImage: Option<string>,
    createdAt: Option<string>)

  const SchemaWelcomeMessage: string := "Hi there \U{1F970} How can I help you?"
  const SchemaButtonColor: string := "#25D366"
  const SchemaPosition: string := "bottom-right"
  const SchemaAgentName: string := "Jane Doe"
  const SchemaReplyTime: string := "Online"

  datatype InsertError = ValidationFailed(paths: set<string>) | DuplicateKey(widgetId: string)

  datatype InsertResult = Inserted(docs: seq<WidgetRecord>, doc: WidgetRecord) | Rejected(error: InsertError)

  predicate IdsUnique(docs: seq<WidgetRecord>) {
    forall i, j :: 0 <= i < j < |docs| ==> docs[i].widgetId != docs[j].widgetId
  }

  /** What the schema guarantees of every stored document. */
  predicate CollectionValid(docs: seq<WidgetRecord>) {
    && IdsUnique(docs)
    && forall i :: 0 <= i < |docs| ==> docs[i].widgetId != [] && docs[i].phoneNumber != []
  }

  /** A String path marked `required` must be present and non-empty. */
  function MissingRequired(f: WidgetFields): set<string> {
    (if Truthy(f.widgetId) then {} else {"widgetId"}) + (if Truthy(f.phoneNumber) then {} else {"phoneNumber"})
  }

  /** The document built from `f`, each undefined path taking its schema default. */
  function WithDefaults(f: WidgetFields, now: string): WidgetRecord
    requires MissingRequired(f) == {}
  {
    WidgetRecord(
      f.widgetId.value, f.phoneNumber.value,
      f.welcomeMessage.GetOr(SchemaWelcomeMessage),
      f.buttonColor.GetOr(SchemaButtonColor),
      f.position.GetOr(SchemaPosition),
      f.agentName.GetOr(SchemaAgentName),
      f.replyTime.GetOr(SchemaReplyTime),
      f.greetingMessage,
      f.greetingImage,
      f.createdAt.GetOr(now))
  }

  /** Saving a new document: validation of required paths, then the unique index on `widgetId`. */
  function Insert(docs: seq<WidgetRecord>, f: WidgetFields, now: string): (r: InsertResult)
    ensures r.Inserted? <==>
      Truthy(f.widgetId) && Truthy(f.phoneNumber) && forall i :: 0 <= i < |docs| ==> docs[i].widgetId != f.widgetId.value
    ensures r.Rejected? && r.error.ValidationFailed? ==> r.error.paths != {} && r.error.paths <= {"widgetId", "phoneNumber"}
    ensures r.Inserted? ==> r.docs == docs + [r.doc] && r.doc.widgetId == f.widgetId.value && r.doc.phoneNumber == f.phoneNumber.value
    ensures r.Inserted? && CollectionValid(docs) ==> CollectionValid(r.docs)
  {
    var missing := MissingRequired(f);
    if missing != {} then
      Rejected(ValidationFailed(missing))
    else if exists i :: 0 <= i < |docs| && docs[i].widgetId == f.widgetId.value then
      Rejected(DuplicateKey(f.widgetId.value))
    else
      var d := WithDefaults(f, now);
      Inserted(docs + [d], d)
  }

  /**
   * With only the required paths given, a document gets the documented defaults:
   * the welcome text, `#25D366`, `bottom-right`, `Jane Doe`, `Online`, a null
   * greeting message and image, and the creation time.
   */
  lemma SchemaDefaults(docs: seq<WidgetRecord>, id: string, phone: string, now: string)
    requires id != [] && phone != []
    requires forall i :: 0 <= i < |docs| ==> docs[i].widgetId != id
    ensures var r := Insert(docs, WidgetFields(Some(id), Some(phone), None, None, None, None, None, None, None, None), now);
      && r.Inserted?
      && r.doc == WidgetRecord(id, phone, "Hi there \U{1F970} How can I help you?", "#25D366", "bottom-right",
                               "Jane Doe", "Online", None, None, now)
  {
  }

  /** A second document with an existing `widgetId` is refused, whatever else it holds. */
  lemma DuplicateIdRefused(docs: seq<WidgetRecord>, f: WidgetFields, now: string, k: nat)
    requires k < |docs| && Truthy(f.widgetId) && Truthy(f.phoneNumber) && docs[k].widgetId == f.widgetId.value
    ensures Insert(docs, f, now) == Rejected(DuplicateKey(f.widgetId.value))
  {
  }
}
