/**
 * What the two generated WhatsApp widget scripts share: the stored chat
 * message, the placement of the floating button and popup, the text a send
 * takes from the input box, and the `wa.me` link it opens.
 */
module ChatMessages {
  import opened Wrappers
  import opened JsText

  datatype Kind = Incoming | Outgoing

  /** One entry of the list kept in `localStorage` under `whatsapp-chat-<widgetId>`. */
  datatype Message = Message(kind: Kind, content: string, timestamp: string, delivered: bool)

  const FallbackWelcome: string := "Hi there! How can I help you today?"
  const FallbackButtonColor: string := "#25D366"

  /** `config.welcomeMessage || "Hi there! How can I help you today?"`. */
  function WelcomeText(welcomeMessage: string): (t: string)
    ensures t != []
    ensures welcomeMessage != [] ==> t == welcomeMessage
  {
    Or(Some(welcomeMessage), FallbackWelcome)
  }

  function StorageKey(widgetId: string): string {
    "whatsapp-chat-" + widgetId
  }

  datatype Side = Left | Right
  datatype Edge = Top | Bottom

  /** Which corner a fixed element is pinned to, and its distance in pixels from the two edges. */
  datatype Placement = Placement(side: Side, edge: Edge, sideOffsetPx: nat, edgeOffsetPx: nat)

  /**
   * `style[position.includes("right") ? "right" : "left"]` and the same for
   * `bottom`/`top`: an element sits on the right iff the position text
   * contains `right`, and at the bottom iff it contains `bottom`. The
   * ensures is that selection itself; the position lemmas below say what it
   * gives for each option of the form.
   */
  function Place(position: string, sideOffsetPx: nat, edgeOffsetPx: nat): (p: Placement)
    ensures p.side == Right <==> Contains(position, "right")
    ensures p.edge == Bottom <==> Contains(position, "bottom")
    ensures p.sideOffsetPx == sideOffsetPx && p.edgeOffsetPx == edgeOffsetPx
  {
    Placement(if Contains(position, "right") then Right else Left,
              if Contains(position, "bottom") then Bottom else Top,
              sideOffsetPx, edgeOffsetPx)
  }

  /** The two bottom positions the configuration form offers land in the two bottom corners. */
  lemma BottomFormPositions(a: nat, b: nat)
    ensures Place("bottom-right", a, b) == Placement(Right, Bottom, a, b)
    ensures Place("bottom-left", a, b) == Placement(Left, Bottom, a, b)
  {
    BottomRightPosition(a, b);
    BottomLeftPosition(a, b);
  }

  lemma BottomRightPosition(a: nat, b: nat)
    ensures Place("bottom-right", a, b) == Placement(Right, Bottom, a, b)
  {
    ContainsInfix("", "bottom", "-right");
    assert "bottom-right" == "" + "bottom" + "-right";
    ContainsInfix("bottom-", "right", "");
    assert "bottom-right" == "bottom-" + "right" + "";
  }

  lemma BottomLeftPosition(a: nat, b: nat)
    ensures Place("bottom-left", a, b) == Placement(Left, Bottom, a, b)
  {
    ContainsInfix("", "bottom", "-left");
    assert "bottom-left" == "" + "bottom" + "-left";
    ContainsNeedsChar("bottom-left", "right", 0);
  }

  /** The two top positions the configuration form offers land in the two top corners. */
  lemma TopFormPositions(a: nat, b: nat)
    ensures Place("top-right", a, b) == Placement(Right, Top, a, b)
    ensures Place("top-left", a, b) == Placement(Left, Top, a, b)
  {
    TopRightPosition(a, b);
    TopLeftPosition(a, b);
  }

  lemma TopRightPosition(a: nat, b: nat)
    ensures Place("top-right", a, b) == Placement(Right, Top, a, b)
  {
    ContainsInfix("top-", "right", "");
    assert "top-right" == "top-" + "right" + "";
    ContainsNeedsChar("top-right", "bottom", 0);
  }

  lemma TopLeftPosition(a: nat, b: nat)
    ensures Place("top-left", a, b) == Placement(Left, Top, a, b)
  {
    ContainsNeedsChar("top-left", "right", 0);
    ContainsNeedsChar("top-left", "bottom", 0);
  }

  /** A position naming neither `right` nor `bottom`, the empty one included, falls back to the top left. */
  lemma UnknownPositionIsTopLeft(position: string, a: nat, b: nat)
    requires forall i :: 0 <= i < |position| ==> position[i] != 'r' && position[i] != 'b'
    ensures Place(position, a, b) == Placement(Left, Top, a, b)
  {
    ContainsNeedsChar(position, "right", 0);
    ContainsNeedsChar(position, "bottom", 0);
  }

  /**
   * The text a send takes from the input box: the trimmed input, or nothing
   * when the input is empty or only whitespace.
   */
  function OutgoingText(input: string): (r: Option<string>)
    ensures r.None? <==> AllSpace(input)
    ensures r.Some? ==> r.value != [] && !IsJsSpace(r.value[0]) && !IsJsSpace(r.value[|r.value| - 1])
    ensures r.Some? ==> exists i :: OccursAt(input, r.value, i)
  {
    TrimEmptyIff(input);
    TrimShape(input);
    var t := Trim(input);
    if t == [] then None
    else
      assert OccursAt(input, t, LeadingSpaces(input));
      Some(t)
  }

  /** `"https://wa.me/" + phone + "?text=" + encodeURIComponent(text)`, with the encoder a parameter. */
  function WhatsAppLink(phone: string, text: string, encode: string -> string): string {
    "https://wa.me/" + phone + "?text=" + encode(text)
  }

  /** `messages[messages.length - 1].delivered = true`; an empty list is left as it is. */
  function MarkLastDelivered(ms: seq<Message>): (r: seq<Message>)
    ensures |r| == |ms|
    ensures ms != [] ==> r[..|ms| - 1] == ms[..|ms| - 1] && r[|ms| - 1] == ms[|ms| - 1].(delivered := true)
    ensures ms == [] ==> r == []
  {
    if ms == [] then [] else ms[..|ms| - 1] + [ms[|ms| - 1].(delivered := true)]
  }

  /** `messages.filter(msg => msg.type === 'incoming')`. */
  function IncomingOnly(ms: seq<Message>): (r: seq<Message>)
    ensures |r| <= |ms|
    ensures forall i :: 0 <= i < |r| ==> r[i].kind == Incoming
    ensures forall m :: m in r <==> m in ms && m.kind == Incoming
    ensures |r| == |ms| <==> forall i :: 0 <= i < |ms| ==> ms[i].kind == Incoming
  {
    if ms == [] then []
    else
      var rest := IncomingOnly(ms[1..]);
      assert forall i :: 1 <= i < |ms| ==> ms[i] == ms[1..][i - 1];
      assert forall m :: m in ms <==> m == ms[0] || m in ms[1..];
      if ms[0].kind == Incoming then [ms[0]] + rest else rest
  }

  /** Filtering twice is filtering once. */
  lemma {:induction false} IncomingOnlyIdempotent(ms: seq<Message>)
    ensures IncomingOnly(IncomingOnly(ms)) == IncomingOnly(ms)
  {
    var r := IncomingOnly(ms);
    IncomingOnlyKeepsAllIncoming(r);
  }

  /** A list that holds only incoming messages is returned unchanged. */
  lemma {:induction false} IncomingOnlyKeepsAllIncoming(ms: seq<Message>)
    requires forall i :: 0 <= i < |ms| ==> ms[i].kind == Incoming
    ensures IncomingOnly(ms) == ms
  {
    if ms != [] {
      assert forall i :: 0 <= i < |ms[1..]| ==> ms[1..][i].kind == Incoming;
      IncomingOnlyKeepsAllIncoming(ms[1..]);
      assert ms == [ms[0]] + ms[1..];
    }
  }

  /** Filtering distributes over appending, so an appended incoming message survives the filter. */
  lemma {:induction false} IncomingOnlyAppend(ms: seq<Message>, ns: seq<Message>)
    ensures IncomingOnly(ms + ns) == IncomingOnly(ms) + IncomingOnly(ns)
  {
    if ms == [] {
      assert ms + ns == ns;
    } else {
      assert (ms + ns)[1..] == ms[1..] + ns;
      IncomingOnlyAppend(ms[1..], ns);
    }
  }

  /** A message just sent and then marked by the delivery tick is the only one that changes. */
  lemma SendThenTickDelivers(ms: seq<Message>, text: string, now: string)
    ensures MarkLastDelivered(ms + [Message(Outgoing, text, now, false)]) == ms + [Message(Outgoing, text, now, true)]
  {
    var ns := ms + [Message(Outgoing, text, now, false)];
    assert ns[..|ns| - 1] == ms;
  }

  /**
   * The tick marks whatever message is last when it fires: if another message
   * was appended after the send, the sent one stays undelivered.
   */
  lemma TickMarksLatestNotSent(ms: seq<Message>, sent: Message, later: Message)
    requires !sent.delivered
    ensures var r := MarkLastDelivered(ms + [sent, later]);
      r[|ms|] == sent && r[|ms| + 1].delivered
  {
    var ns := ms + [sent, later];
    assert ns[..|ns| - 1][|ms|] == sent;
  }
}
