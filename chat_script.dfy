/**
 * The chat behaviour of the WhatsApp widget script served by the file-backed
 * store: opening and closing the popup, the greeting and welcome messages,
 * sending a message, the delivery tick and the image attachment checks.
 */
module ChatScript {
  import opened Wrappers
  import opened JsText
  import opened WidgetSchema
  import opened ChatMessages
  import UploadFilter

  const ButtonOffsetPx: nat := 20
  const PopupEdgeOffsetPx: nat := 80
  const MaxChatImageBytes: nat := 5 * 1024 * 1024
  const WrongTypeError: string := "Only JPEG or PNG images are allowed."
  const TooLargeError: string := "Image size must be less than 5MB."
  const ReadFailedError: string := "Failed to read the image file."
  const ImageShareText: string := "Check out this image!"

  /** Where the floating button sits, and the popup above it on the same side. */
  function ButtonPlacement(config: WidgetRecord): Placement {
    Place(config.position, ButtonOffsetPx, ButtonOffsetPx)
  }

  function PopupPlacement(config: WidgetRecord): Placement {
    Place(config.position, ButtonOffsetPx, PopupEdgeOffsetPx)
  }

  /** `config.buttonColor || "#25D366"`. */
  function ButtonColor(config: WidgetRecord): (c: string)
    ensures c != []
    ensures config.buttonColor != [] ==> c == config.buttonColor
  {
    Or(Some(config.buttonColor), FallbackButtonColor)
  }

  /** The popup opens on the button's side and edge, further from the edge than the button. */
  lemma PopupBesideButton(config: WidgetRecord)
    ensures PopupPlacement(config).side == ButtonPlacement(config).side
    ensures PopupPlacement(config).edge == ButtonPlacement(config).edge
    ensures PopupPlacement(config).edgeOffsetPx > ButtonPlacement(config).edgeOffsetPx
  {
  }

  /** The stored list right after the popup is opened with `stored` in storage. */
  function AfterOpen(config: WidgetRecord, stored: seq<Message>, now: string): (r: seq<Message>)
    ensures stored != [] ==> r == stored
    ensures stored == [] && Truthy(config.greetingMessage) ==> r == [Message(Incoming, config.greetingMessage.value, now, false)]
    ensures stored == [] && !Truthy(config.greetingMessage) ==> r == []
  {
    if stored == [] && Truthy(config.greetingMessage) then [Message(Incoming, config.greetingMessage.value, now, false)] else stored
  }

  /** A widget saved by the file store always has a greeting, so its first opening stores one. */
  lemma SavedWidgetGreets(config: WidgetRecord, now: string)
    requires Truthy(config.greetingMessage)
    ensures |AfterOpen(config, [], now)| == 1 && AfterOpen(config, [], now)[0].content == config.greetingMessage.value
  {
  }

  /**
   * The attachment checks: the type must be exactly `image/jpeg` or
   * `image/png` (tested first), then the size at most 5 MiB.
   */
  function CheckChatImage(fileType: string, size: nat): (r: Option<string>)
    ensures r.None? <==> (fileType == "image/jpeg" || fileType == "image/png") && size <= MaxChatImageBytes
    ensures fileType != "image/jpeg" && fileType != "image/png" ==> r == Some(WrongTypeError)
    ensures (fileType == "image/jpeg" || fileType == "image/png") && size > MaxChatImageBytes ==> r == Some(TooLargeError)
  {
    if fileType != "image/jpeg" && fileType != "image/png" then Some(WrongTypeError)
    else if size > MaxChatImageBytes then Some(TooLargeError)
    else None
  }

  /** Every type the chat accepts also passes the server's MIME pattern; the converse fails, for example for `image/jpg`. */
  lemma ChatTypesPassServerPattern(fileType: string)
    ensures (fileType == "image/jpeg" || fileType == "image/png") ==> UploadFilter.ImageTypePattern(fileType)
    ensures UploadFilter.ImageTypePattern("image/jpg") && CheckChatImage("image/jpg", 0) == Some(WrongTypeError)
  {
    ContainsInfix("image/", "jpeg", "");
    assert "image/jpeg" == "image/" + "jpeg" + "";
    ContainsInfix("image/", "png", "");
    assert "image/png" == "image/" + "png" + "";
    ContainsInfix("image/", "jpg", "");
    assert "image/jpg" == "image/" + "jpg" + "";
  }

  /** The markup stored as the content of an image message. */
  function ImageContent(dataUrl: string): string {
    "<img src=\"" + dataUrl + "\" class=\"max-w-full rounded max-h-[200px] object-contain block\" alt=\"Uploaded image\" />"
  }

  /**
   * Whether the attachment input is emptied once the change handler is
   * done, as the handler is written: the oversize branch calls `clamp`,
   * which the script never defines, so it throws before the input is reset.
   * A failed `localStorage` write also throws before the reset.
   */
  function InputClearedAsWritten(fileType: string, size: nat, readOk: bool, storageOk: bool): (cleared: bool)
    ensures CheckChatImage(fileType, size) == Some(WrongTypeError) ==> cleared
    ensures CheckChatImage(fileType, size) == Some(TooLargeError) ==> !cleared
    ensures CheckChatImage(fileType, size).None? ==> (cleared <==> !readOk || storageOk)
  {
    match CheckChatImage(fileType, size)
    case Some(e) => e == WrongTypeError
    case None => !readOk || storageOk
  }

  /** The evident intent: every rejection resets the input, so the same file can be picked again. */
  function InputClearedIntended(fileType: string, size: nat, readOk: bool, storageOk: bool): (cleared: bool)
    ensures CheckChatImage(fileType, size).Some? ==> cleared
    ensures CheckChatImage(fileType, size).None? ==> (cleared <==> !readOk || storageOk)
  {
    CheckChatImage(fileType, size).Some? || !readOk || storageOk
  }

  /** The two differ exactly on an oversized image of an accepted type. */
  lemma ClearingDiffersOnlyWhenOversized(fileType: string, size: nat, readOk: bool, storageOk: bool)
    ensures InputClearedAsWritten(fileType, size, readOk, storageOk) != InputClearedIntended(fileType, size, readOk, storageOk)
      <==> CheckChatImage(fileType, size) == Some(TooLargeError)
  {
  }

  /** A 5 MiB + 1 byte PNG is reported too large, but stays selected. */
  lemma OversizedImageStaysSelected()
    ensures CheckChatImage("image/png", MaxChatImageBytes + 1) == Some(TooLargeError)
    ensures !InputClearedAsWritten("image/png", MaxChatImageBytes + 1, true, true)
    ensures InputClearedIntended("image/png", MaxChatImageBytes + 1, true, true)
  {
  }

  /**
   * One page's chat state: the fetched configuration, the messages in
   * `localStorage`, whether the popup is open, and how many welcome timers
   * are still pending. Timers are events the caller fires. `saveMessages`
   * is a bare `localStorage.setItem`: `storageOk` says whether the write
   * succeeds; when it throws, the rest of the handler is skipped.
   */
  class ChatSession {
    const config: WidgetRecord
    var stored: seq<Message>
    var isChatOpen: bool
    var pendingWelcomes: nat

    constructor (config: WidgetRecord, stored: seq<Message>)
      ensures this.config == config && this.stored == stored
      ensures !isChatOpen && pendingWelcomes == 0
    {
      this.config := config;
      this.stored := stored;
      isChatOpen := false;
      pendingWelcomes := 0;
    }

    /**
     * The button's click handler: flip the popup; on opening with nothing
     * stored, store the greeting and schedule the welcome. A greeting write
     * that throws leaves the list as it was and schedules no welcome.
     */
    method Toggle(now: string, storageOk: bool)
      modifies this
      ensures isChatOpen == !old(isChatOpen)
      ensures var greets := isChatOpen && old(stored) == [] && Truthy(config.greetingMessage);
        stored == (if isChatOpen && (storageOk || !greets) then AfterOpen(config, old(stored), now) else old(stored))
      ensures var schedules := isChatOpen && old(stored) == [] && (storageOk || !Truthy(config.greetingMessage));
        pendingWelcomes == (if schedules then old(pendingWelcomes) + 1 else old(pendingWelcomes))
    {
      isChatOpen := !isChatOpen;
      if isChatOpen && stored == [] {
        if Truthy(config.greetingMessage) {
          if !storageOk {
            return;
          }
          stored := [Message(Incoming, config.greetingMessage.value, now, false)];
        }
        pendingWelcomes := pendingWelcomes + 1;
      }
    }

    /** The close button: the popup is closed whatever its state. */
    method Close()
      modifies this
      ensures !isChatOpen
      ensures stored == old(stored) && pendingWelcomes == old(pendingWelcomes)
    {
      isChatOpen := false;
    }

    /** A pending welcome timer fires and appends the welcome text to the stored list, if the write succeeds. */
    method WelcomeArrives(now: string, storageOk: bool)
      modifies this
      ensures old(pendingWelcomes) == 0 ==> stored == old(stored) && pendingWelcomes == 0
      ensures old(pendingWelcomes) > 0 ==>
        && pendingWelcomes == old(pendingWelcomes) - 1
        && stored == old(stored) + (if storageOk then [Message(Incoming, WelcomeText(config.welcomeMessage), now, false)] else [])
      ensures isChatOpen == old(isChatOpen)
    {
      if pendingWelcomes > 0 {
        pendingWelcomes := pendingWelcomes - 1;
        if storageOk {
          stored := stored + [Message(Incoming, WelcomeText(config.welcomeMessage), now, false)];
        }
      }
    }

    /**
     * `sendMessage`: a non-blank input is stored as an undelivered outgoing
     * message and opened in WhatsApp; a failed write stops the handler
     * before the link opens.
     */
    method SendMessage(input: string, now: string, encode: string -> string, storageOk: bool) returns (link: Option<string>)
      modifies this
      ensures OutgoingText(input).None? || !storageOk ==> link.None? && stored == old(stored)
      ensures OutgoingText(input).Some? && storageOk ==>
        var text := OutgoingText(input).value;
        && stored == old(stored) + [Message(Outgoing, text, now, false)]
        && link == Some(WhatsAppLink(config.phoneNumber, text, encode))
      ensures isChatOpen == old(isChatOpen) && pendingWelcomes == old(pendingWelcomes)
    {
      var text := OutgoingText(input);
      link := None;
      if text.Some? && storageOk {
        stored := stored + [Message(Outgoing, text.value, now, false)];
        link := Some(WhatsAppLink(config.phoneNumber, text.value, encode));
      }
    }

    /** The delivery timer: the last stored message is marked delivered, if the write succeeds. */
    method DeliveryTick(storageOk: bool)
      modifies this
      ensures stored == (if storageOk then MarkLastDelivered(old(stored)) else old(stored))
      ensures isChatOpen == old(isChatOpen) && pendingWelcomes == old(pendingWelcomes)
    {
      if stored != [] && storageOk {
        stored := stored[..|stored| - 1] + [stored[|stored| - 1].(delivered := true)];
      }
    }

    /**
     * The attachment input's change handler. `dataUrl` is what the file
     * reader produced (`None` when it failed). An accepted image is stored as
     * an undelivered outgoing message and a share link is opened;
     * `inputCleared` says whether the input was reset afterwards.
     */
    method AttachImage(fileType: string, size: nat, dataUrl: Option<string>, now: string, encode: string -> string, storageOk: bool)
      returns (error: Option<string>, link: Option<string>, inputCleared: bool)
      modifies this
      ensures inputCleared == InputClearedAsWritten(fileType, size, dataUrl.Some?, storageOk)
      ensures CheckChatImage(fileType, size).Some? ==> error == CheckChatImage(fileType, size) && link.None? && stored == old(stored)
      ensures CheckChatImage(fileType, size).None? && dataUrl.None? ==> error == Some(ReadFailedError) && link.None? && stored == old(stored)
      ensures CheckChatImage(fileType, size).None? && dataUrl.Some? && !storageOk ==> error.None? && link.None? && stored == old(stored)
      ensures CheckChatImage(fileType, size).None? && dataUrl.Some? && storageOk ==>
        && error.None?
        && stored == old(stored) + [Message(Outgoing, ImageContent(dataUrl.value), now, false)]
        && link == Some(WhatsAppLink(config.phoneNumber, ImageShareText, encode))
      ensures isChatOpen == old(isChatOpen) && pendingWelcomes == old(pendingWelcomes)
    {
      error := CheckChatImage(fileType, size);
      link := None;
      if error.Some? {
        inputCleared := error == Some(WrongTypeError);
        return;
      }
      if dataUrl.None? {
        error := Some(ReadFailedError);
        inputCleared := true;
        return;
      }
      if !storageOk {
        inputCleared := false;
        return;
      }
      stored := stored + [Message(Outgoing, ImageContent(dataUrl.value), now, false)];
      link := Some(WhatsAppLink(config.phoneNumber, ImageShareText, encode));
      inputCleared := true;
    }
  }
}
