/**
 * The two Places lookups that sit behind a response cache: `reviews` (by
 * client id) and `searchPlace` (by free text or a `place_id:` query). The
 * Google calls are replies passed in; the cache is a map without expiry.
 */
module PlacesProxy {
  import opened Wrappers
  import opened JsText
  import ClientRegistry

  /** The `result` object of a place-details reply, kept opaque. */
  datatype PlaceResult = PlaceResult(json: string)

  /** What a cache entry holds: reviews data also carries the client's display settings. */
  datatype CachedValue =
    | ReviewsData(result: PlaceResult, themeColor: JsValue, widgetSize: JsValue)
    | PlaceData(result: PlaceResult)

  /** A place-details call: a reply with a status, or a thrown error. */
  datatype DetailsReply =
    | DetailsReplied(status: string, result: PlaceResult, errorMessage: Option<string>)
    | DetailsThrew(message: string)

  /** A find-place call: the status and each candidate's `place_id`, or a thrown error. */
  datatype FindReply = FindReplied(status: string, candidates: seq<Option<string>>) | FindThrew(message: string)

  datatype Body = ErrorBody(error: string, details: Option<string>) | Data(value: CachedValue)

  datatype Response = Response(status: int, body: Body)

  /** One handler call: the response, the cache afterwards, and which upstream calls were made. */
  datatype Outcome = Outcome(response: Response, cache: map<string, CachedValue>, calledFind: bool, calledDetails: bool)

  function ReviewsKey(placeId: string): string { "reviews_" + placeId }
  function PlaceKey(placeId: string): string { "place_" + placeId }

  /** The two handlers' keys never collide, so neither serves the other's entries. */
  lemma KeysDisjoint(a: string, b: string)
    ensures ReviewsKey(a) != PlaceKey(b)
  {
    assert ReviewsKey(a)[0] == 'r' && PlaceKey(b)[0] == 'p';
  }

  const FetchFailed := "Failed to fetch place details"

  // reviews

  /** `reviews`: the client's config, its place id, the cache, then the details call. */
  function ReviewsStep(clients: map<string, ClientRegistry.ClientData>, clientId: Option<string>,
                       cache: map<string, CachedValue>, reply: DetailsReply): (o: Outcome)
    ensures !o.calledFind
    ensures Interp(clientId) !in clients ==>
      o.response == Response(400, ErrorBody("Invalid client ID", Some("Client ID not found in configurations")))
    ensures Interp(clientId) in clients && !JsTruthy(clients[Interp(clientId)].placeId) ==>
      o.response == Response(400, ErrorBody("Missing place ID", Some("No placeId found for clientId: " + Interp(clientId))))
    ensures o.calledDetails <==> Interp(clientId) in clients && JsTruthy(clients[Interp(clientId)].placeId)
                                 && ReviewsKey(clients[Interp(clientId)].placeId.s) !in cache
    ensures Interp(clientId) in clients && JsTruthy(clients[Interp(clientId)].placeId)
            && ReviewsKey(clients[Interp(clientId)].placeId.s) in cache ==>
      o.response == Response(200, Data(cache[ReviewsKey(clients[Interp(clientId)].placeId.s)])) && o.cache == cache
    ensures o.calledDetails && reply.DetailsReplied? && reply.status == "OK" ==>
      var config := clients[Interp(clientId)];
      var data := ReviewsData(reply.result, config.themeColor, config.widgetSize);
      o.response == Response(200, Data(data)) && o.cache == cache[ReviewsKey(config.placeId.s) := data]
    ensures o.calledDetails && reply.DetailsThrew? ==>
      o.response == Response(500, ErrorBody(FetchFailed, Some(reply.message)))
    ensures o.calledDetails && reply.DetailsReplied? && reply.status != "OK" ==>
      o.response == Response(404, ErrorBody("Place details not found", Some(Or(reply.errorMessage, "Google API status: " + reply.status))))
    ensures o.response.status == 200 <==> o.response.body.Data?
    ensures o.cache != cache ==> o.calledDetails && reply.DetailsReplied? && reply.status == "OK"
    ensures forall k :: k in cache ==> k in o.cache && o.cache[k] == cache[k]
  {
    var key := Interp(clientId);
    if key !in clients then
      Outcome(Response(400, ErrorBody("Invalid client ID", Some("Client ID not found in configurations"))), cache, false, false)
    else
      var config := clients[key];
      if !JsTruthy(config.placeId) then
        Outcome(Response(400, ErrorBody("Missing place ID", Some("No placeId found for clientId: " + key))), cache, false, false)
      else
        var cacheKey := ReviewsKey(config.placeId.s);
        if cacheKey in cache then Outcome(Response(200, Data(cache[cacheKey])), cache, false, false)
        else
          match reply
          case DetailsThrew(message) =>
            Outcome(Response(500, ErrorBody(FetchFailed, Some(message))), cache, false, true)
          case DetailsReplied(status, result, errorMessage) =>
            if status != "OK" then
              Outcome(Response(404, ErrorBody("Place details not found", Some(Or(errorMessage, "Google API status: " + status)))),
                      cache, false, true)
            else
              var data := ReviewsData(result, config.themeColor, config.widgetSize);
              Outcome(Response(200, Data(data)), cache[cacheKey := data], false, true)
  }

  /** A successful fetch stores, under the place's key, exactly what it returns. */
  lemma ReviewsCachesWhatItReturns(clients: map<string, ClientRegistry.ClientData>, clientId: Option<string>,
                                   cache: map<string, CachedValue>, reply: DetailsReply)
    requires Interp(clientId) in clients && JsTruthy(clients[Interp(clientId)].placeId)
    requires ReviewsKey(clients[Interp(clientId)].placeId.s) !in cache
    requires reply.DetailsReplied? && reply.status == "OK"
    ensures var o := ReviewsStep(clients, clientId, cache, reply);
      var config := clients[Interp(clientId)];
      o.response == Response(200, Data(ReviewsData(reply.result, config.themeColor, config.widgetSize)))
      && o.cache == cache[ReviewsKey(config.placeId.s) := o.response.body.value]
  {
  }

  /** After any 200 answer the same request is answered the same way from the cache, with no upstream call. */
  lemma ReviewsRepeatHitsCache(clients: map<string, ClientRegistry.ClientData>, clientId: Option<string>,
                               cache: map<string, CachedValue>, reply: DetailsReply, later: DetailsReply)
    requires ReviewsStep(clients, clientId, cache, reply).response.status == 200
    ensures var o1 := ReviewsStep(clients, clientId, cache, reply);
      var o2 := ReviewsStep(clients, clientId, o1.cache, later);
      o2.response == o1.response && o2.cache == o1.cache && !o2.calledDetails
  {
  }

  /**
   * The reviews key holds only the place id, yet the cached value carries
   * the display settings of the client whose request filled it: a second
   * client with the same place is answered with the first client's colour
   * and size.
   */
  lemma ReviewsCacheSharesSettings(clients: map<string, ClientRegistry.ClientData>, first: string, second: string,
                                   cache: map<string, CachedValue>, reply: DetailsReply, later: DetailsReply)
    requires first in clients && second in clients
    requires JsTruthy(clients[first].placeId) && clients[second].placeId == clients[first].placeId
    requires ReviewsKey(clients[first].placeId.s) !in cache
    requires reply.DetailsReplied? && reply.status == "OK"
    ensures var o1 := ReviewsStep(clients, Some(first), cache, reply);
      var o2 := ReviewsStep(clients, Some(second), o1.cache, later);
      && !o2.calledDetails
      && o2.response == Response(200, Data(ReviewsData(reply.result, clients[first].themeColor, clients[first].widgetSize)))
  {
    var o1 := ReviewsStep(clients, Some(first), cache, reply);
    assert Interp(Some(first)) == first && Interp(Some(second)) == second;
    assert o1.cache == cache[ReviewsKey(clients[first].placeId.s) := o1.response.body.value];
  }

  /**
   * The evident intent: the place data may be shared, but every 200 answer
   * carries the settings of the client that asked. The cache and the calls
   * are those of `ReviewsStep`.
   */
  function ReviewsStepIntended(clients: map<string, ClientRegistry.ClientData>, clientId: Option<string>,
                               cache: map<string, CachedValue>, reply: DetailsReply): (o: Outcome)
    ensures var w := ReviewsStep(clients, clientId, cache, reply);
      o.cache == w.cache && o.calledDetails == w.calledDetails && o.calledFind == w.calledFind
      && (o.response.status == 200 <==> w.response.status == 200)
      && (w.response.status != 200 ==> o.response == w.response)
    ensures o.response.status == 200 ==>
      && Interp(clientId) in clients
      && o.response.body.Data?
      && o.response.body.value.ReviewsData?
      && o.response.body.value.themeColor == clients[Interp(clientId)].themeColor
      && o.response.body.value.widgetSize == clients[Interp(clientId)].widgetSize
  {
    var w := ReviewsStep(clients, clientId, cache, reply);
    if w.response.status == 200 then
      var config := clients[Interp(clientId)];
      w.(response := Response(200, Data(ReviewsData(w.response.body.value.result, config.themeColor, config.widgetSize))))
    else w
  }

  /** With the intended answer, the second client of a shared place gets its own colour and size from the cache. */
  lemma IntendedKeepsOwnSettings(clients: map<string, ClientRegistry.ClientData>, first: string, second: string,
                                 cache: map<string, CachedValue>, reply: DetailsReply, later: DetailsReply)
    requires first in clients && second in clients
    requires JsTruthy(clients[first].placeId) && clients[second].placeId == clients[first].placeId
    requires ReviewsKey(clients[first].placeId.s) !in cache
    requires reply.DetailsReplied? && reply.status == "OK"
    ensures var o1 := ReviewsStepIntended(clients, Some(first), cache, reply);
      var o2 := ReviewsStepIntended(clients, Some(second), o1.cache, later);
      && !o2.calledDetails
      && o2.response == Response(200, Data(ReviewsData(reply.result, clients[second].themeColor, clients[second].widgetSize)))
  {
    ReviewsCacheSharesSettings(clients, first, second, cache, reply, later);
    assert Interp(Some(second)) == second;
  }

  // searchPlace

  const PlaceIdPrefix := "place_id:"

  /** How `searchPlace` settles the place id: from the query, from the first candidate, or an early response. */
  datatype Resolution = Resolved(placeId: Option<string>, calledFind: bool) | Stopped(response: Response, calledFind: bool)

  function ResolvePlaceId(query: string, find: FindReply): (r: Resolution)
    ensures r.calledFind <==> !StartsWith(query, PlaceIdPrefix)
    ensures StartsWith(query, PlaceIdPrefix) ==> r == Resolved(Some(query[|PlaceIdPrefix|..]), false)
    ensures !StartsWith(query, PlaceIdPrefix) && find.FindReplied? && find.status == "OK" && find.candidates != [] ==>
      r == Resolved(find.candidates[0], true)
    ensures !StartsWith(query, PlaceIdPrefix) && find.FindReplied? && (find.status != "OK" || find.candidates == []) ==>
      r == Stopped(Response(404, ErrorBody("Place not found", None)), true)
    ensures !StartsWith(query, PlaceIdPrefix) && find.FindThrew? ==>
      r == Stopped(Response(500, ErrorBody(FetchFailed, Some(find.message))), true)
  {
    if !StartsWith(query, PlaceIdPrefix) then
      match find
      case FindThrew(message) => Stopped(Response(500, ErrorBody(FetchFailed, Some(message))), true)
      case FindReplied(status, candidates) =>
        if status != "OK" || |candidates| == 0 then Stopped(Response(404, ErrorBody("Place not found", None)), true)
        else Resolved(candidates[0], true)
    else
      ReplacePrefix(query, PlaceIdPrefix);
      Resolved(Some(ReplaceFirst(query, PlaceIdPrefix, "")), false)
  }

  /** `searchPlace`: the query guard, the place id, the cache, then the details call. */
  function SearchStep(query: Option<string>, cache: map<string, CachedValue>, find: FindReply, details: DetailsReply): (o: Outcome)
    ensures !Truthy(query) ==> o == Outcome(Response(400, ErrorBody("Query is required", None)), cache, false, false)
    ensures Truthy(query) ==> o.calledFind == ResolvePlaceId(query.value, find).calledFind
    ensures o.calledDetails <==> Truthy(query) && ResolvePlaceId(query.value, find).Resolved?
                                 && PlaceKey(Interp(ResolvePlaceId(query.value, find).placeId)) !in cache
    ensures Truthy(query) && ResolvePlaceId(query.value, find).Stopped? ==>
      o.response == ResolvePlaceId(query.value, find).response && o.cache == cache
    ensures Truthy(query) && ResolvePlaceId(query.value, find).Resolved?
            && PlaceKey(Interp(ResolvePlaceId(query.value, find).placeId)) in cache ==>
      o.response == Response(200, Data(cache[PlaceKey(Interp(ResolvePlaceId(query.value, find).placeId))])) && o.cache == cache
    ensures o.calledDetails && details.DetailsReplied? && details.status == "OK" ==>
      o.response == Response(200, Data(PlaceData(details.result)))
      && o.cache == cache[PlaceKey(Interp(ResolvePlaceId(query.value, find).placeId)) := PlaceData(details.result)]
    ensures o.calledDetails && details.DetailsReplied? && details.status != "OK" ==>
      o.response == Response(404, ErrorBody("Place details not found", None))
    ensures o.calledDetails && details.DetailsThrew? ==>
      o.response == Response(500, ErrorBody(FetchFailed, Some(details.message)))
    ensures o.response.status == 200 <==> o.response.body.Data?
    ensures o.cache != cache ==> o.calledDetails && details.DetailsReplied? && details.status == "OK"
    ensures forall k :: k in cache ==> k in o.cache && o.cache[k] == cache[k]
  {
    if !Truthy(query) then Outcome(Response(400, ErrorBody("Query is required", None)), cache, false, false)
    else
      match ResolvePlaceId(query.value, find)
      case Stopped(response, calledFind) => Outcome(response, cache, calledFind, false)
      case Resolved(placeId, calledFind) =>
        var cacheKey := PlaceKey(Interp(placeId));
        if cacheKey in cache then Outcome(Response(200, Data(cache[cacheKey])), cache, calledFind, false)
        else
          match details
          case DetailsThrew(message) => Outcome(Response(500, ErrorBody(FetchFailed, Some(message))), cache, calledFind, true)
          case DetailsReplied(status, result, _) =>
            if status != "OK" then Outcome(Response(404, ErrorBody("Place details not found", None)), cache, calledFind, true)
            else
              var data := PlaceData(result);
              Outcome(Response(200, Data(data)), cache[cacheKey := data], calledFind, true)
  }

  /** A `place_id:` query never calls find-place and asks for details of the rest of the query. */
  lemma SearchByPlaceIdSkipsFind(query: string, cache: map<string, CachedValue>, find: FindReply, details: DetailsReply)
    requires StartsWith(query, PlaceIdPrefix)
    requires PlaceKey(query[|PlaceIdPrefix|..]) !in cache
    requires details.DetailsReplied? && details.status == "OK"
    ensures var o := SearchStep(Some(query), cache, find, details);
      !o.calledFind && o.calledDetails
      && o.response == Response(200, Data(PlaceData(details.result)))
      && o.cache == cache[PlaceKey(query[|PlaceIdPrefix|..]) := PlaceData(details.result)]
  {
  }

  /**
   * A repeated search is answered from the cache once it has succeeded, with
   * no details call; a text query still calls find-place every time.
   */
  lemma SearchRepeatHitsCache(query: Option<string>, cache: map<string, CachedValue>, find: FindReply,
                              details: DetailsReply, later: DetailsReply)
    requires SearchStep(query, cache, find, details).response.status == 200
    ensures var o1 := SearchStep(query, cache, find, details);
      var o2 := SearchStep(query, o1.cache, find, later);
      o2.response == o1.response && o2.cache == o1.cache && !o2.calledDetails && o2.calledFind == o1.calledFind
  {
  }

  /** The shared cache object the handlers read and write. */
  class ResponseCache {
    var entries: map<string, CachedValue>

    constructor ()
      ensures entries == map[]
    {
      entries := map[];
    }

    method Reviews(clients: map<string, ClientRegistry.ClientData>, clientId: Option<string>, reply: DetailsReply)
      returns (response: Response, calledDetails: bool)
      modifies this
      ensures var o := ReviewsStep(clients, clientId, old(entries), reply);
        response == o.response && entries == o.cache && calledDetails == o.calledDetails
    {
      calledDetails := false;
      var key := Interp(clientId);
      if key !in clients {
        return Response(400, ErrorBody("Invalid client ID", Some("Client ID not found in configurations"))), false;
      }
      var config := clients[key];
      if !JsTruthy(config.placeId) {
        return Response(400, ErrorBody("Missing place ID", Some("No placeId found for clientId: " + key))), false;
      }
      var cacheKey := ReviewsKey(config.placeId.s);
      if cacheKey in entries {
        return Response(200, Data(entries[cacheKey])), false;
      }
      calledDetails := true;
      if reply.DetailsThrew? {
        return Response(500, ErrorBody(FetchFailed, Some(reply.message))), true;
      }
      if reply.status != "OK" {
        return Response(404, ErrorBody("Place details not found", Some(Or(reply.errorMessage, "Google API status: " + reply.status)))), true;
      }
      var data := ReviewsData(reply.result, config.themeColor, config.widgetSize);
      entries := entries[cacheKey := data];
      response := Response(200, Data(data));
    }

    method SearchPlace(query: Option<string>, find: FindReply, details: DetailsReply)
      returns (response: Response, calledFind: bool, calledDetails: bool)
      modifies this
      ensures var o := SearchStep(query, old(entries), find, details);
        response == o.response && entries == o.cache && calledFind == o.calledFind && calledDetails == o.calledDetails
    {
      calledFind, calledDetails := false, false;
      if !Truthy(query) {
        return Response(400, ErrorBody("Query is required", None)), false, false;
      }
      var q := query.value;
      var placeId := Some(q);
      if !StartsWith(q, PlaceIdPrefix) {
        calledFind := true;
        if find.FindThrew? {
          return Response(500, ErrorBody(FetchFailed, Some(find.message))), true, false;
        }
        if find.status != "OK" || |find.candidates| == 0 {
          return Response(404, ErrorBody("Place not found", None)), true, false;
        }
        placeId := find.candidates[0];
      } else {
        placeId := Some(ReplaceFirst(q, PlaceIdPrefix, ""));
      }
      var cacheKey := PlaceKey(Interp(placeId));
      if cacheKey in entries {
        return Response(200, Data(entries[cacheKey])), calledFind, false;
      }
      calledDetails := true;
      if details.DetailsThrew? {
        return Response(500, ErrorBody(FetchFailed, Some(details.message))), calledFind, true;
      }
      if details.status != "OK" {
        return Response(404, ErrorBody("Place details not found", None)), calledFind, true;
      }
      var data := PlaceData(details.result);
      entries := entries[cacheKey := data];
      response := Response(200, Data(data));
    }
  }
}
