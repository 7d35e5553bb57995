/**
 * The WhatsApp widget script served from the document store: the request
 * handling in front of it and the chat behaviour it embeds, which keeps only
 * incoming messages in `localStorage`.
 */
module ChatScriptMongo {
  import opened Wrappers
  import opened JsText
  import opened WidgetSchema
  import opened ChatMessages
  import WhatsAppStore

  const ButtonOffsetPx: nat := 16
  const PopupEdgeOffsetPx: nat := 80

  function ButtonPlacement(config: WidgetRecord): Placement {
    Place(config.position, ButtonOffsetPx, ButtonOffsetPx)
  }

  function PopupPlacement(config: WidgetRecord): Placement {
    Place(config.position, ButtonOffsetPx, PopupEdgeOffsetPx)
  }

  /** `Widget.findOne({widgetId})`: the first document with that id, or `None`. */
  function FindOne(docs: seq<WidgetRecord>, widgetId: string): (r: Option<WidgetRecord>)
    ensures r.None? <==> forall i :: 0 <= i < |docs| ==> docs[i].widgetId != widgetId
    ensures r.Some? ==> r.value in docs && r.value.widgetId == widgetId
  {
    var k := WhatsAppStore.FindIndex(docs, widgetId);
    if k == -1 then None else Some(docs[k])
  }

  /**
   * The handler: 400 without an id, 404 when no document has it, 500 when
   * the lookup throws, and otherwise the script for that widget.
   */
  function ServeWidgetScript(rawId: Option<string>, sanitize: string -> string, docs: seq<WidgetRecord>,
                             lookupOk: bool, baseUrl: string): (r: WhatsAppStore.ScriptResponse)
    ensures var id := WhatsAppStore.SanitizeField(sanitize, rawId);
      && (!Truthy(id) ==> r == WhatsAppStore.JsonError(400, "Widget ID is required"))
      && (Truthy(id) && !lookupOk ==> r == WhatsAppStore.JsonError(500, "Failed to serve widget script"))
      && (Truthy(id) && lookupOk && FindOne(docs, id.value).None? ==> r == WhatsAppStore.JsonError(404, "Widget not found"))
      && (r.Script? <==> Truthy(id) && lookupOk && exists i :: 0 <= i < |docs| && docs[i].widgetId == id.value)
      && (r.Script? ==> r.containerId == WhatsAppStore.ContainerId(id.value)
                        && r.configUrl == baseUrl + "/api/whatsapp/widgets/" + id.value
                        && r.contentType == "application/javascript")
  {
    var id := WhatsAppStore.SanitizeField(sanitize, rawId);
    if !Truthy(id) then WhatsAppStore.JsonError(400, "Widget ID is required")
    else if !lookupOk then WhatsAppStore.JsonError(500, "Failed to serve widget script")
    else if FindOne(docs, id.value).None? then WhatsAppStore.JsonError(404, "Widget not found")
    else WhatsAppStore.Script("application/javascript", WhatsAppStore.ContainerId(id.value),
                              baseUrl + "/api/whatsapp/widgets/" + id.value)
  }

  /** The welcome is scheduled only while no stored message carries the welcome text. */
  predicate WelcomeDue(welcomeMessage: string, stored: seq<Message>) {
    forall i :: 0 <= i < |stored| ==> stored[i].content != WelcomeText(welcomeMessage)
  }

  /**
   * `saveMessages` as written: it calls `localStorage.setProperty`, which is
   * not a method of the storage object, so the call always throws, the error
   * is caught and the storage keeps what it held. The ensures is that
   * outcome itself; `SaveAsWrittenLosesGreeting` says what it costs.
   */
  function SaveAsWritten(storage: seq<Message>, ms: seq<Message>): (r: seq<Message>)
    ensures r == storage
  {
    storage
  }

  /** `saveMessages` with `localStorage.setItem`: the storage holds the incoming messages given. */
  function SaveIntended(ms: seq<Message>): (r: seq<Message>)
    ensures forall i :: 0 <= i < |r| ==> r[i].kind == Incoming
    ensures forall m :: m in r <==> m in ms && m.kind == Incoming
  {
    IncomingOnly(ms)
  }

  /** As written, the greeting saved on a first opening is gone the next time the messages are read. */
  lemma SaveAsWrittenLosesGreeting(greeting: string, now: string)
    ensures var g := Message(Incoming, greeting, now, false);
      IncomingOnly(SaveAsWritten([], [g])) == [] != [g]
  {
  }

  /** As written, a due welcome stays due after it was saved, so every opening schedules it again. */
  lemma SaveAsWrittenWelcomeRepeats(welcomeMessage: string, storage: seq<Message>, now: string)
    requires WelcomeDue(welcomeMessage, IncomingOnly(storage))
    ensures var saved := SaveAsWritten(IncomingOnly(storage), IncomingOnly(storage) + [Message(Incoming, WelcomeText(welcomeMessage), now, false)]);
      WelcomeDue(welcomeMessage, IncomingOnly(saved))
  {
    IncomingOnlyIdempotent(storage);
  }

  /** With `setItem`, reading back what was saved gives exactly the incoming messages saved. */
  lemma {:induction false} SaveIntendedRoundTrip(ms: seq<Message>)
    ensures IncomingOnly(SaveIntended(ms)) == IncomingOnly(ms)
  {
    IncomingOnlyIdempotent(ms);
  }

  /** With `setItem`, once the welcome has been saved it is no longer due. */
  lemma {:induction false} SaveIntendedWelcomeOnce(welcomeMessage: string, storage: seq<Message>, now: string)
    ensures var w := Message(Incoming, WelcomeText(welcomeMessage), now, false);
      !WelcomeDue(welcomeMessage, IncomingOnly(SaveIntended(IncomingOnly(storage) + [w])))
  {
    var w := Message(Incoming, WelcomeText(welcomeMessage), now, false);
    var r := IncomingOnly(SaveIntended(IncomingOnly(storage) + [w]));
    IncomingOnlyAppend(IncomingOnly(storage), [w]);
    assert IncomingOnly([w]) == [w] by { IncomingOnlyKeepsAllIncoming([w]); }
    SaveIntendedRoundTrip(IncomingOnly(storage) + [w]);
    assert r[|r| - 1] == w;
  }

  /**
   * One page's chat state: the fetched configuration, the list under the
   * storage key, whether the script thinks the chat is open, whether the popup
   * is displayed, and the pending welcome timers.
   */
  class ChatSession {
    const config: WidgetRecord
    var storage: seq<Message>
    var isChatOpen: bool
    var popupVisible: bool
    var pendingWelcomes: nat

    constructor (config: WidgetRecord, storage: seq<Message>)
      ensures this.config == config && this.storage == storage
      ensures !isChatOpen && !popupVisible && pendingWelcomes == 0
    {
      this.config := config;
      this.storage := storage;
      isChatOpen := false;
      popupVisible := false;
      pendingWelcomes := 0;
    }

    /** `getStoredMessages`: the incoming messages; storage is rewritten only when something was dropped. */
    method GetStoredMessages() returns (ms: seq<Message>, rewrote: bool)
      modifies this
      ensures ms == IncomingOnly(old(storage)) && storage == ms
      ensures rewrote <==> exists i :: 0 <= i < |old(storage)| && old(storage)[i].kind == Outgoing
      ensures isChatOpen == old(isChatOpen) && popupVisible == old(popupVisible) && pendingWelcomes == old(pendingWelcomes)
    {
      ms := IncomingOnly(storage);
      rewrote := |ms| != |storage|;
      if rewrote {
        storage := ms;
      } else {
        IncomingOnlyKeepsAllIncoming(storage);
      }
    }

    /**
     * `saveMessages` with the intended `setItem`. `storageOk` is false when
     * the write throws; the error is caught and the storage is left as it was.
     */
    method SaveMessages(ms: seq<Message>, storageOk: bool)
      modifies this
      ensures storage == (if storageOk then SaveIntended(ms) else old(storage))
      ensures isChatOpen == old(isChatOpen) && popupVisible == old(popupVisible) && pendingWelcomes == old(pendingWelcomes)
    {
      if storageOk {
        storage := IncomingOnly(ms);
      }
    }

    /** The button's click handler: open or close; on opening, the greeting and welcome rules. */
    method Toggle(now: string, storageOk: bool) returns (greetingShown: bool)
      modifies this
      ensures isChatOpen == !old(isChatOpen) && popupVisible == isChatOpen
      ensures greetingShown <==> isChatOpen && IncomingOnly(old(storage)) == [] && Truthy(config.greetingMessage)
      ensures !isChatOpen ==> storage == old(storage) && pendingWelcomes == old(pendingWelcomes)
      ensures isChatOpen ==>
        && storage == (if greetingShown && storageOk then [Message(Incoming, config.greetingMessage.value, now, false)]
                       else IncomingOnly(old(storage)))
        && pendingWelcomes == (if WelcomeDue(config.welcomeMessage, IncomingOnly(old(storage)))
                               then old(pendingWelcomes) + 1 else old(pendingWelcomes))
    {
      isChatOpen := !isChatOpen;
      popupVisible := isChatOpen;
      greetingShown := false;
      if isChatOpen {
        var ms, _ := GetStoredMessages();
        if ms == [] && Truthy(config.greetingMessage) {
          greetingShown := true;
          var g := Message(Incoming, config.greetingMessage.value, now, false);
          SaveMessages([g], storageOk);
          assert IncomingOnly([g]) == [g] by { IncomingOnlyKeepsAllIncoming([g]); }
        }
        if forall i :: 0 <= i < |ms| ==> ms[i].content != WelcomeText(config.welcomeMessage) {
          pendingWelcomes := pendingWelcomes + 1;
        }
      }
    }

    /** A pending welcome timer fires: the welcome is appended to the incoming messages and saved, when the write succeeds. */
    method WelcomeArrives(now: string, storageOk: bool)
      modifies this
      ensures old(pendingWelcomes) == 0 ==> storage == old(storage) && pendingWelcomes == 0
      ensures old(pendingWelcomes) > 0 ==>
        && pendingWelcomes == old(pendingWelcomes) - 1
        && storage == (if storageOk then IncomingOnly(old(storage)) + [Message(Incoming, WelcomeText(config.welcomeMessage), now, false)]
                       else IncomingOnly(old(storage)))
      ensures isChatOpen == old(isChatOpen) && popupVisible == old(popupVisible)
    {
      if pendingWelcomes > 0 {
        pendingWelcomes := pendingWelcomes - 1;
        var ms, _ := GetStoredMessages();
        var w := Message(Incoming, WelcomeText(config.welcomeMessage), now, false);
        SaveMessages(ms + [w], storageOk);
        IncomingOnlyAppend(ms, [w]);
        IncomingOnlyIdempotent(old(storage));
        assert IncomingOnly([w]) == [w] by { IncomingOnlyKeepsAllIncoming([w]); }
      }
    }

    /**
     * The close button: the popup is closed whatever its state, and hidden
     * once its 250 ms timer has run; the next click on the button reopens it.
     */
    method Close()
      modifies this
      ensures !isChatOpen && !popupVisible
      ensures storage == old(storage) && pendingWelcomes == old(pendingWelcomes)
    {
      isChatOpen := false;
      popupVisible := false;
    }

    /** `sendMessage`: nothing for a blank input; otherwise open WhatsApp and show the popup. Nothing is stored. */
    method SendMessage(input: string, encode: string -> string) returns (link: Option<string>)
      modifies this
      ensures OutgoingText(input).None? ==> link.None? && popupVisible == old(popupVisible)
      ensures OutgoingText(input).Some? ==> link == Some(WhatsAppLink(config.phoneNumber, OutgoingText(input).value, encode)) && popupVisible
      ensures storage == old(storage) && isChatOpen == old(isChatOpen) && pendingWelcomes == old(pendingWelcomes)
    {
      var text := OutgoingText(input);
      link := None;
      if text.Some? {
        link := Some(WhatsAppLink(config.phoneNumber, text.value, encode));
        popupVisible := true;
      }
    }
  }
}
