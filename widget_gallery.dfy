/**
 * The widget gallery page: the case-insensitive search over the widget
 * cards and the route a card click leads to.
 */
module WidgetGallery {
  import opened Wrappers
  import opened JsText

  datatype WidgetCard = WidgetCard(id: string, name: string, description: string)

  /** The two cards the gallery shows, in display order. */
  const Catalogue: seq<WidgetCard> := [
    WidgetCard("google-reviews", "Google Reviews", "Display Google Reviews for your business"),
    WidgetCard("whatsapp", "WhatsApp", "Configure and use WhatsApp chat widget")
  ]

  /** The filter's test: the lower-cased name or description contains the lower-cased query. */
  predicate Matches(w: WidgetCard, query: string) {
    Contains(ToLower(w.name), ToLower(query)) || Contains(ToLower(w.description), ToLower(query))
  }

  /** `filteredWidgets`. */
  function FilterWidgets(ws: seq<WidgetCard>, query: string): (r: seq<WidgetCard>)
    ensures |r| <= |ws|
    ensures forall w :: w in r ==> w in ws && Matches(w, query)
    ensures forall w :: w in ws && Matches(w, query) ==> w in r
  {
    if ws == [] then []
    else (if Matches(ws[0], query) then [ws[0]] else []) + FilterWidgets(ws[1..], query)
  }

  /** The filter works card by card, so it keeps the original order. */
  lemma {:induction false} FilterAppend(a: seq<WidgetCard>, b: seq<WidgetCard>, query: string)
    ensures FilterWidgets(a + b, query) == FilterWidgets(a, query) + FilterWidgets(b, query)
  {
    if a == [] {
      assert a + b == b;
    } else {
      assert (a + b)[0] == a[0];
      assert (a + b)[1..] == a[1..] + b;
      FilterAppend(a[1..], b, query);
    }
  }

  /** An empty search keeps every card. */
  lemma {:induction false} EmptyQueryKeepsAll(ws: seq<WidgetCard>)
    ensures FilterWidgets(ws, "") == ws
  {
    if ws != [] {
      assert ToLower("") == "";
      assert OccursAt(ToLower(ws[0].name), "", 0);
      EmptyQueryKeepsAll(ws[1..]);
    }
  }

  /** Filtering again with the same query changes nothing. */
  lemma {:induction false} FilterIdempotent(ws: seq<WidgetCard>, query: string)
    ensures FilterWidgets(FilterWidgets(ws, query), query) == FilterWidgets(ws, query)
  {
    if ws != [] {
      FilterIdempotent(ws[1..], query);
      var head := if Matches(ws[0], query) then [ws[0]] else [];
      FilterAppend(head, FilterWidgets(ws[1..], query), query);
      if Matches(ws[0], query) {
        assert FilterWidgets(head, query) == head by {
          assert head[1..] == [];
        }
      }
    }
  }

  /** The search ignores letter case in the query. */
  lemma QueryCaseIgnored(w: WidgetCard, query: string)
    ensures Matches(w, ToLower(query)) <==> Matches(w, query)
  {
    ToLowerIdempotent(query);
  }

  /** `String.prototype.substr(start, length)` for a non-negative start. */
  function Substr(s: string, start: nat, length: nat): (r: string)
    ensures |r| <= length
    ensures start < |s| ==> r == s[start..if start + length <= |s| then start + length else |s|]
  {
    if start >= |s| then [] else s[start..if start + length <= |s| then start + length else |s|]
  }

  /** The route state: the card, plus the starting values the WhatsApp builder receives. */
  datatype SelectedWidget = SelectedWidget(id: string, name: string, description: string,
                                           phoneNumber: Option<string>, welcomeMessage: Option<string>, widgetId: Option<string>)

  datatype Navigation = Navigation(path: string, selected: SelectedWidget)

  /**
   * `handleCardClick`: `whatsapp` goes to `/whatsapp` with a sample number,
   * a welcome text and a `wa-` id made from `Math.random().toString(36)`
   * (given here as `randomBase36`); `google-reviews` goes to
   * `/google-reviews`; anything else to `/dashboard`.
   */
  function HandleCardClick(w: WidgetCard, randomBase36: string): (n: Navigation)
    ensures n.selected.id == w.id && n.selected.name == w.name && n.selected.description == w.description
    ensures w.id == "whatsapp" ==>
      (n.path == "/whatsapp" && n.selected.widgetId.Some?
       && StartsWith(n.selected.widgetId.value, "wa-") && |n.selected.widgetId.value| <= 12
       && n.selected.phoneNumber == Some("+919876543210"))
    ensures w.id == "google-reviews" ==> n.path == "/google-reviews"
    ensures w.id != "whatsapp" ==> n.selected.widgetId.None? && n.selected.phoneNumber.None?
    ensures w.id != "whatsapp" && w.id != "google-reviews" ==> n.path == "/dashboard"
  {
    if w.id == "whatsapp" then
      var id := "wa-" + Substr(randomBase36, 2, 9);
      assert id[..3] == "wa-";
      Navigation("/whatsapp", SelectedWidget(w.id, w.name, w.description, Some("+919876543210"),
                                             Some("Hi! How can we help you today?"), Some(id)))
    else if w.id == "google-reviews" then
      Navigation("/google-reviews", SelectedWidget(w.id, w.name, w.description, None, None, None))
    else
      Navigation("/dashboard", SelectedWidget(w.id, w.name, w.description, None, None, None))
  }

  /** Every card of the gallery leads to its own builder, never to the dashboard. */
  lemma CatalogueCardsHaveBuilders(randomBase36: string)
    ensures forall k :: 0 <= k < |Catalogue| ==> HandleCardClick(Catalogue[k], randomBase36).path != "/dashboard"
  {
  }
}
