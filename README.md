# Wedget widget pipeline, modelled in Dafny

Wedget lets a site owner configure an embeddable widget and paste one snippet into their
pages. Two widget kinds make up the core modelled here.

- **WhatsApp chat button.** The configuration form (`WhatsAppWidget.jsx`) posts phone number,
  texts, colour, position and an optional greeting image.
  - `createWidget` checks the phone against `PHONE_REGEX`, fills defaults, updates or appends a
    record in the widget list and answers with an embed snippet.
  - `getWidget` returns a record with its image URL made absolute.
  - `serveWidgetScript` answers the snippet's script request. The script builds the chat popup.
    It keeps the conversation in `localStorage`, shows a greeting and a delayed welcome, and
    sends messages and images to `wa.me`.
  - A document-store variant replaces the JSON file with a Mongoose model (`Widget.js`). Its
    served script keeps only incoming messages.
- **Google reviews.**
  - The form (`GoogleReviewsWidget.jsx`) searches places, through the server's `searchPlace`
    handler with its response cache, and saves a configuration.
  - `generateClient` registers a client under a fresh uuid in the client table, which is kept in
    a JSON file or a document collection (`clientManager.js`, two versions).
  - The per-client script, in a raw and a sanitized version (`widget.js`), fetches the reviews
    through `reviews.js`. It renders a rating distribution and sorts reviews by one of four
    options. It pages them five at a time and remembers likes and the sort option.

Around these sit the account endpoints (`authController.js`, the `Signup` model), the login
page's validators, and the gallery page that routes a card click to a builder.

Each Dafny module follows one source file or one pair of variant files.

- **Pure code** (validators, URL and snippet builders, reducers, the server's branch structure)
  becomes functions and lemmas.
- **State that the source updates in place** becomes classes whose methods are proved against
  those functions. This covers the widget list, the client table, the response cache, the user
  collection, the chat popup, the review list and the React forms' state.
- **What cannot be seen from the code** becomes a parameter: file and database success, clocks,
  `uuid`, `Math.random`, `sanitize-html`, `bcrypt`, `jwt`, `encodeURIComponent`, the Google API's
  replies and the browser's `FileReader`.

JavaScript semantics are written out where they matter:

- truthiness;
- `||` against destructuring defaults;
- `undefined` interpolated as the text `"undefined"`;
- `String.prototype.replace` with a string pattern, which replaces only the first occurrence;
- `includes`, `trim` and `toLowerCase`;
- the unanchored regular expressions, written out as predicates.

## Model

| member | source | states |
|---|---|---|
| WhatsAppConfig.PhoneRegexTest | Backend/routes/whatsappWidget1.js/config/constants.js:15 | the anchored automaton accepts exactly a `+` followed by 10 to 15 ASCII digits |
| WhatsAppConfig.PhoneRegexShape | Backend/routes/whatsappWidget1.js/config/constants.js:15 | `+` followed by digits is accepted if and only if there are 10 to 15 of them |
| WhatsAppConfig.PhoneRegexRejects | Backend/routes/whatsappWidget1.js/config/constants.js:15 | 9 or 16 digits, a missing `+`, or any non-digit after the first character is rejected |
| WhatsAppConfig.UndefinedPhoneRejected | Backend/routes/whatsappWidget1.js/handlers/createWidget.js:36-39 | a missing phone, read as the text `undefined`, never passes |
| WhatsAppConfig.DefaultGreetingIsTruthy | Backend/routes/whatsappWidget1.js/config/constants.js:13 | the one-space greeting default is truthy yet blank |
| WidgetSchema.Insert | Backend/routes/googleReviews/routes/whatsappWidget1.js/model/Widget.js:3-14 | a document is inserted iff `widgetId` and `phoneNumber` are non-empty and the id is new; validation names only those two paths; an insert appends one document with the given id and phone and keeps the collection valid |
| WidgetSchema.WithDefaults | Backend/routes/googleReviews/routes/whatsappWidget1.js/model/Widget.js:6-13 | the stored record with the schema's defaults filled in; `SchemaDefaults` states them |
| WidgetSchema.SchemaDefaults | Backend/routes/googleReviews/routes/whatsappWidget1.js/model/Widget.js:6-13 | a document given only id and phone gets the schema's five text defaults, null greeting and image, and the creation time |
| WidgetSchema.DuplicateIdRefused | Backend/routes/googleReviews/routes/whatsappWidget1.js/model/Widget.js:4 | a second document with an existing `widgetId` is refused with a duplicate-key error whatever else it holds |
| UploadFilter.FileFilter | Backend/routes/googleReviews/routes/whatsappWidget1.js/config/upload.js:5-13 | a file is accepted iff the lower-cased extension and the MIME type both contain `jpeg`, `jpg` or `png`; otherwise the error `Only JPEG/PNG images are allowed` |
| UploadFilter.ExtensionCaseIgnored | Backend/routes/googleReviews/routes/whatsappWidget1.js/config/upload.js:7 | the extension's case never changes the verdict |
| UploadFilter.UpperExtensionAccepted | Backend/routes/googleReviews/routes/whatsappWidget1.js/config/upload.js:6-9 | `.PNG` with `image/png` is accepted |
| UploadFilter.MimetypeCaseMatters | Backend/routes/googleReviews/routes/whatsappWidget1.js/config/upload.js:8 | the MIME type is not lower-cased: `image/PNG` is refused |
| UploadFilter.PatternUnanchored | Backend/routes/googleReviews/routes/whatsappWidget1.js/config/upload.js:6 | any text around a matching word still matches |
| UploadFilter.Upload | Backend/routes/googleReviews/routes/whatsappWidget1.js/config/upload.js:3-15 | a file is stored iff the filter accepts it and its body is at most 5 MiB; a refused type gives the filter's error, whatever the size |
| UploadFilter.LimitInclusive | Backend/routes/googleReviews/routes/whatsappWidget1.js/config/upload.js:14 | an accepted file of exactly 5 × 1024 × 1024 bytes is stored, one byte more exceeds the limit |
| WhatsAppStore.SanitizeField | Backend/routes/googleReviews/routes/whatsappWidget1.js/utils/sanitize.js:3-10 | an absent field stays absent and a present one stays present |
| WhatsAppStore.SanitizeRequest | Backend/routes/whatsappWidget1.js/handlers/createWidget.js:25-34 | each of the eight request fields passes through `SanitizeField`; `SanitizeField` states what that keeps |
| WhatsAppStore.UploadUrl | Backend/routes/whatsappWidget1.js/handlers/createWidget.js:61 | the stored image URL: the base URL, `/Uploads/` and the stored file name |
| WhatsAppStore.FindIndex | Backend/routes/whatsappWidget1.js/handlers/createWidget.js:45 | the first index whose id matches, or -1 exactly when no record has the id |
| WhatsAppStore.Reassigned | Backend/routes/whatsappWidget1.js/handlers/createWidget.js:51-63 | the updated record takes the phone from the request and each other text field from the request or, when empty, its default |
| WhatsAppStore.FilledRecordIsFilled | Backend/routes/whatsappWidget1.js/handlers/createWidget.js:51-59 | a record filled from a request whose phone passed the pattern has a valid phone and no empty text field |
| WhatsAppStore.CreateWidgetSpec | Backend/routes/whatsappWidget1.js/handlers/createWidget.js:36-93 | the 400 for a bad phone and the 404 for an unknown id write nothing. An update rewrites only the matched record, keeping its id and creation time; the old image is deleted iff a file was uploaded and an image existed. A create appends exactly one record under the fresh id. A save answers with the snippet for the saved id |
| WhatsAppStore.CreatePreservesInvariants | Backend/routes/whatsappWidget1.js/handlers/createWidget.js:44-86 | a save keeps widget ids unique and every record filled, given a fresh id not already in the list |
| WhatsAppStore.UpdateIdempotent | Backend/routes/whatsappWidget1.js/handlers/createWidget.js:44-67 | applying the same update twice writes the same list as applying it once |
| WhatsAppStore.ReadFailureCreateKeepsOnlyNew | Backend/routes/whatsappWidget1.js/utils/fileUtils.js:24-32 | after a failed read, a create writes back a list holding only the new widget |
| WhatsAppStore.Absolutised | Backend/routes/whatsappWidget1.js/handlers/getWidget.js:14-16 | only the image field can change; a non-empty image not starting with `http` gets the base URL in front; any other image is kept |
| WhatsAppStore.AbsolutisedIdempotent | Backend/routes/whatsappWidget1.js/handlers/getWidget.js:14-16 | with an `http` base URL, making the image URL absolute twice equals doing it once |
| WhatsAppStore.EmbedCode | Backend/routes/whatsappWidget1.js/handlers/createWidget.js:92 | the snippet returned on save; `EmbedNamesContainer` and `EmbedLoadsScript` state what it holds |
| WhatsAppStore.EmbedNamesContainer | Backend/routes/whatsappWidget1.js/handlers/createWidget.js:92 | the snippet declares the container `whatsapp-widget-<id>` |
| WhatsAppStore.EmbedLoadsScript | Backend/routes/whatsappWidget1.js/handlers/createWidget.js:92 | the snippet loads `widget.js?widgetId=<id>` |
| WhatsAppStore.WidgetStore.constructor | Backend/routes/whatsappWidget1.js/utils/fileUtils.js:15-22 | the store starts with the given list |
| WhatsAppStore.WidgetStore.CreateWidget | Backend/routes/whatsappWidget1.js/handlers/createWidget.js:7-98 | the handler does what `CreateWidgetSpec` decides, reading an empty list when the read fails. A failed write answers 500 `Failed to save widget` and leaves the list unchanged, though the old image is already deleted. The store's invariant is kept |
| WhatsAppStore.WidgetStore.GetWidget | Backend/routes/whatsappWidget1.js/handlers/getWidget.js:5-18 | 404 iff no record has the sanitized id; otherwise the first such record with its image made absolute |
| WhatsAppStore.WidgetStore.ServeWidgetScript | Backend/routes/whatsappWidget1.js/handlers/serveWidgetScript.js:5-23 | 400 for a missing or empty id; 404 for an unknown one; otherwise a JavaScript response whose container and config URL are built from the id |
| WhatsAppStore.SavedWidgetIsServed | Backend/routes/whatsappWidget1.js/handlers/createWidget.js:88-93 | a saved widget is found again by the id in the answer, and its snippet names the container the script looks up |
| ChatMessages.WelcomeText | Backend/routes/whatsappWidget1.js/handlers/serveWidgetScript.js:379 | the welcome text is never empty, and it is the configured text whenever that is non-empty |
| ChatMessages.Place | Backend/routes/whatsappWidget1.js/handlers/serveWidgetScript.js:158-160 | the element sits on the right iff the position contains `right`, at the bottom iff it contains `bottom`, at the given offsets |
| ChatMessages.BottomFormPositions | Backend/routes/whatsappWidget1.js/handlers/serveWidgetScript.js:159-160 | `bottom-right` and `bottom-left` land in the two bottom corners |
| ChatMessages.TopFormPositions | Backend/routes/whatsappWidget1.js/handlers/serveWidgetScript.js:159-160 | `top-right` and `top-left` land in the two top corners |
| ChatMessages.UnknownPositionIsTopLeft | Backend/routes/whatsappWidget1.js/handlers/serveWidgetScript.js:159-160 | a position with neither an `r` nor a `b`, the empty one included, falls back to the top left |
| ChatMessages.OutgoingText | Backend/routes/whatsappWidget1.js/handlers/serveWidgetScript.js:521-522 | nothing is sent iff the input is all whitespace; otherwise the sent text occurs in the input and starts and ends with a non-space |
| ChatMessages.WhatsAppLink | Backend/routes/whatsappWidget1.js/handlers/serveWidgetScript.js:549 | the `wa.me` address for the number, with the encoded text as its `text` parameter; the encoding is a parameter |
| ChatMessages.MarkLastDelivered | Backend/routes/whatsappWidget1.js/handlers/serveWidgetScript.js:539-546 | the length is kept; only the last message changes, and it becomes delivered; an empty list stays empty |
| ChatMessages.IncomingOnly | Backend/routes/googleReviews/routes/whatsappWidget1.js/handlers/serveWidgetScript.js:298 | the result keeps exactly the incoming messages and is no longer than the input; it has the input's length iff every message is incoming |
| ChatMessages.IncomingOnlyIdempotent | Backend/routes/googleReviews/routes/whatsappWidget1.js/handlers/serveWidgetScript.js:296-303 | filtering twice is filtering once |
| ChatMessages.IncomingOnlyKeepsAllIncoming | Backend/routes/googleReviews/routes/whatsappWidget1.js/handlers/serveWidgetScript.js:299-302 | a list of incoming messages passes unchanged, so storage is rewritten only when something was dropped |
| ChatMessages.IncomingOnlyAppend | Backend/routes/googleReviews/routes/whatsappWidget1.js/handlers/serveWidgetScript.js:435 | filtering distributes over appending |
| ChatMessages.SendThenTickDelivers | Backend/routes/whatsappWidget1.js/handlers/serveWidgetScript.js:537-546 | after a send and its delivery tick, only the sent message has changed, and it is now delivered |
| ChatMessages.TickMarksLatestNotSent | Backend/routes/whatsappWidget1.js/handlers/serveWidgetScript.js:539-546 | if another message was appended before the tick fires, the tick marks that one and the sent one stays undelivered |
| ChatScript.ButtonColor | Backend/routes/whatsappWidget1.js/handlers/serveWidgetScript.js:158 | the colour is never empty, and it is the configured colour whenever that is non-empty |
| ChatScript.PopupBesideButton | Backend/routes/whatsappWidget1.js/handlers/serveWidgetScript.js:179-180 | the popup is on the button's side and edge, further from the edge than the button |
| ChatScript.AfterOpen | Backend/routes/whatsappWidget1.js/handlers/serveWidgetScript.js:347-359 | messages already stored are kept; with nothing stored, the greeting is stored iff it is non-empty |
| ChatScript.SavedWidgetGreets | Backend/routes/whatsappWidget1.js/handlers/serveWidgetScript.js:349-358 | a record with a non-empty greeting stores exactly that greeting on its first opening |
| ChatScript.CheckChatImage | Backend/routes/whatsappWidget1.js/handlers/serveWidgetScript.js:444-459 | an image is accepted iff its type is `image/jpeg` or `image/png` and it is at most 5 MiB; the type is checked before the size |
| ChatScript.ChatTypesPassServerPattern | Backend/routes/whatsappWidget1.js/handlers/serveWidgetScript.js:444 | every type the chat accepts passes the server's MIME pattern; `image/jpg` passes the server but not the chat |
| ChatScript.InputClearedAsWritten | Backend/routes/whatsappWidget1.js/handlers/serveWidgetScript.js:452-470 | the input is reset after a wrong type and a failed read, and after an accepted image iff the write succeeds. It is not reset after an oversized image, since the undefined `clamp` throws first |
| ChatScript.InputClearedIntended | Backend/routes/whatsappWidget1.js/handlers/serveWidgetScript.js:452-470 | every rejection resets the input; the other cases are as written |
| ChatScript.ClearingDiffersOnlyWhenOversized | Backend/routes/whatsappWidget1.js/handlers/serveWidgetScript.js:466-470 | the written and the intended reset differ exactly on an oversized image of an accepted type |
| ChatScript.OversizedImageStaysSelected | Backend/routes/whatsappWidget1.js/handlers/serveWidgetScript.js:459-470 | a PNG one byte over 5 MiB is reported too large but stays selected, where the intended handler resets it |
| ChatScript.ChatSession.constructor | Backend/routes/whatsappWidget1.js/handlers/serveWidgetScript.js:299 | a new session is closed with nothing pending, over the stored messages |
| ChatScript.ChatSession.Toggle | Backend/routes/whatsappWidget1.js/handlers/serveWidgetScript.js:300-400 | a click flips the popup. An opening stores what `AfterOpen` decides and schedules a welcome iff it found nothing stored, except that a greeting write which throws leaves the list as it was and schedules nothing |
| ChatScript.ChatSession.Close | Backend/routes/whatsappWidget1.js/handlers/serveWidgetScript.js:409-416 | the close button leaves the popup closed and changes nothing else |
| ChatScript.ChatSession.WelcomeArrives | Backend/routes/whatsappWidget1.js/handlers/serveWidgetScript.js:361-386 | a pending welcome timer is used up and appends the welcome text as an incoming message, unless the write throws |
| ChatScript.ChatSession.SendMessage | Backend/routes/whatsappWidget1.js/handlers/serveWidgetScript.js:519-550 | a blank input changes nothing. Otherwise the trimmed text is stored as an undelivered outgoing message and its `wa.me` link is opened, unless the write throws, which stores nothing and opens nothing |
| ChatScript.ChatSession.DeliveryTick | Backend/routes/whatsappWidget1.js/handlers/serveWidgetScript.js:539-546 | the delivery tick marks the last stored message delivered, unless the write throws |
| ChatScript.ChatSession.AttachImage | Backend/routes/whatsappWidget1.js/handlers/serveWidgetScript.js:441-517 | a rejected image or a failed read reports its error and stores nothing. An accepted one is stored as an outgoing image and opens the share link, unless the write throws. The input is reset as `InputClearedAsWritten` says |
| ChatScriptMongo.FindOne | Backend/routes/googleReviews/routes/whatsappWidget1.js/handlers/serveWidgetScript.js:13 | nothing is found iff no document has the id; a found document has the id |
| ChatScriptMongo.ServeWidgetScript | Backend/routes/googleReviews/routes/whatsappWidget1.js/handlers/serveWidgetScript.js:5-579 | 400 for a missing id; 500 when the lookup throws; 404 for an unknown id; otherwise the script for that container |
| ChatScriptMongo.SaveAsWritten | Backend/routes/googleReviews/routes/whatsappWidget1.js/handlers/serveWidgetScript.js:304-311 | the storage is left as it was, whatever is saved |
| ChatScriptMongo.SaveIntended | Backend/routes/googleReviews/routes/whatsappWidget1.js/handlers/serveWidgetScript.js:304-311 | the storage holds exactly the incoming messages given |
| ChatScriptMongo.SaveAsWrittenLosesGreeting | Backend/routes/googleReviews/routes/whatsappWidget1.js/handlers/serveWidgetScript.js:392-401 | as written, the greeting saved on a first opening is gone the next time the messages are read |
| ChatScriptMongo.SaveAsWrittenWelcomeRepeats | Backend/routes/googleReviews/routes/whatsappWidget1.js/handlers/serveWidgetScript.js:405-437 | as written, a due welcome is still due after it was saved |
| ChatScriptMongo.SaveIntendedRoundTrip | Backend/routes/googleReviews/routes/whatsappWidget1.js/handlers/serveWidgetScript.js:296-311 | with `setItem`, reading back gives exactly the incoming messages saved |
| ChatScriptMongo.SaveIntendedWelcomeOnce | Backend/routes/googleReviews/routes/whatsappWidget1.js/handlers/serveWidgetScript.js:405-437 | with `setItem`, a saved welcome is no longer due |
| ChatScriptMongo.ChatSession.constructor | Backend/routes/googleReviews/routes/whatsappWidget1.js/handlers/serveWidgetScript.js:348 | a new session is closed and hidden, with nothing pending |
| ChatScriptMongo.ChatSession.GetStoredMessages | Backend/routes/googleReviews/routes/whatsappWidget1.js/handlers/serveWidgetScript.js:296-303 | the read returns the incoming messages and stores them; the storage is rewritten iff an outgoing message was dropped |
| ChatScriptMongo.ChatSession.SaveMessages | Backend/routes/googleReviews/routes/whatsappWidget1.js/handlers/serveWidgetScript.js:304-311 | a successful save stores the incoming messages given; a failed one keeps the storage |
| ChatScriptMongo.ChatSession.Toggle | Backend/routes/googleReviews/routes/whatsappWidget1.js/handlers/serveWidgetScript.js:349-438 | a click flips the popup. An opening shows the greeting iff nothing incoming is stored and the greeting is non-empty, and saves it when the write succeeds (the `setItem` reading); the script as written, whose `setProperty` save always throws, is the case where the write fails. A welcome is scheduled iff no stored message carries the welcome text |
| ChatScriptMongo.ChatSession.WelcomeArrives | Backend/routes/googleReviews/routes/whatsappWidget1.js/handlers/serveWidgetScript.js:418-436 | a pending welcome is used up; it is appended to the incoming messages and saved when the write succeeds (the `setItem` reading); the script as written, whose `setProperty` save always throws, is the case where the write fails |
| ChatScriptMongo.ChatSession.Close | Backend/routes/googleReviews/routes/whatsappWidget1.js/handlers/serveWidgetScript.js:460-472 | the close button leaves the popup closed and hidden and changes nothing stored or pending |
| ChatScriptMongo.ChatSession.SendMessage | Backend/routes/googleReviews/routes/whatsappWidget1.js/handlers/serveWidgetScript.js:481-490 | a blank input changes nothing; otherwise the `wa.me` link is opened and the popup shown, and nothing is stored |
| ClientRegistry.ClientTable.constructor | Backend/routes/googleReviews/utils/clientManager.js:5 | the table starts with the given entries |
| ClientRegistry.ClientTable.Set | Backend/routes/googleReviews/utils/clientManager.js:32-34 | one key is (re)assigned and every other entry is kept |
| ClientRegistry.FileClientManager.constructor | Backend/routes/googleReviews/utils/clientManager.js:5 | the manager starts with an empty table over the given file |
| ClientRegistry.FileClientManager.LoadClients | Backend/routes/googleReviews/utils/clientManager.js:7-16 | a new table holding the file's contents, or an empty one when reading fails; tables handed out earlier are not touched |
| ClientRegistry.FileClientManager.SaveClients | Backend/routes/googleReviews/utils/clientManager.js:18-26 | the file receives the whole table; a failed write leaves the file unchanged and is not reported |
| ClientRegistry.FileClientManager.GetClients | Backend/routes/googleReviews/utils/clientManager.js:28-30 | the live table itself is handed out, not a copy |
| ClientRegistry.FileClientManager.SetClient | Backend/routes/googleReviews/utils/clientManager.js:32-34 | one key of the live table is (re)assigned |
| ClientRegistry.ReduceDocs | Backend/routes/googleReviews/routes/googleReviews/utils/clientManager.js:30-33 | the documents folded in order into a table keyed by client id; `ReduceDocsKeys` and `ReduceDocsLastWins` state its keys and values |
| ClientRegistry.ReduceDocsKeys | Backend/routes/googleReviews/routes/googleReviews/utils/clientManager.js:30-33 | the reduced table has exactly the ids present in the documents |
| ClientRegistry.ReduceDocsLastWins | Backend/routes/googleReviews/routes/googleReviews/utils/clientManager.js:30-33 | each id maps to the data of its last document |
| ClientRegistry.LaterDuplicateWins | Backend/routes/googleReviews/routes/googleReviews/utils/clientManager.js:30-33 | of two documents with the same id, the later one wins |
| ClientRegistry.FirstDoc | Backend/routes/googleReviews/routes/googleReviews/utils/clientManager.js:46-50 | the first document with the id, or -1 exactly when there is none |
| ClientRegistry.Upsert | Backend/routes/googleReviews/routes/googleReviews/utils/clientManager.js:46-50 | an existing document is replaced in place; a missing one is appended |
| ClientRegistry.UpsertKeepsIdsUnique | Backend/routes/googleReviews/routes/googleReviews/utils/clientManager.js:46-50 | an upsert never creates a second document for an id |
| ClientRegistry.ReduceReplaceUnique | Backend/routes/googleReviews/routes/googleReviews/utils/clientManager.js:30-50 | with unique ids, replacing one document's data changes only that key of the reduced table |
| ClientRegistry.ReloadAfterUpsert | Backend/routes/googleReviews/routes/googleReviews/utils/clientManager.js:24-67 | with unique ids, reloading after an upsert gives the old table with that one key updated |
| ClientRegistry.MongoClientManager.constructor | Backend/routes/googleReviews/routes/googleReviews/utils/clientManager.js:8 | the manager starts with an empty table over the given collection |
| ClientRegistry.MongoClientManager.LoadClients | Backend/routes/googleReviews/routes/googleReviews/utils/clientManager.js:24-39 | a new table reduced from every document, or an empty one when connecting or reading fails |
| ClientRegistry.MongoClientManager.SaveClient | Backend/routes/googleReviews/routes/googleReviews/utils/clientManager.js:42-56 | a successful write upserts one document; a failed one keeps the collection and rethrows |
| ClientRegistry.MongoClientManager.GetClients | Backend/routes/googleReviews/routes/googleReviews/utils/clientManager.js:59-61 | the live table itself is handed out |
| ClientRegistry.MongoClientManager.SetClient | Backend/routes/googleReviews/routes/googleReviews/utils/clientManager.js:64-67 | the table is updated in memory before the save, even when the save throws. After a successful save, memory agrees with what a reload would produce |
| GenerateClient.StoredData | Backend/routes/googleReviews/handlers/generateClient.js:6 | the stored record takes `placeId` and `placeName` as sent; `themeColor` and `widgetSize` default to `teal` and `medium` only when they are absent |
| GenerateClient.EmptyThemeColorKept | Backend/routes/googleReviews/handlers/generateClient.js:6 | an empty `themeColor` is stored as empty, although `||` would have replaced it |
| GenerateClient.EmbedCode | Backend/routes/googleReviews/handlers/generateClient.js:24-27 | the reviews snippet; `EmbedCarriesClientId` and `EmbedLoadsClientScript` state what it holds |
| GenerateClient.EmbedCarriesClientId | Backend/routes/googleReviews/handlers/generateClient.js:24-27 | the snippet carries the client id as `data-client-id` |
| GenerateClient.EmbedLoadsClientScript | Backend/routes/googleReviews/handlers/generateClient.js:24-27 | the snippet loads `<base>/api/google/widget/<id>.js` |
| GenerateClient.Generate | Backend/routes/googleReviews/handlers/generateClient.js:5-31 | 400 and no change when `placeId` or `placeName` is falsy. Otherwise the record is stored under the fresh id and the file gets the table when the write succeeds. The answer is the same whether or not the write succeeded |
| ReviewList.RatingDistribution | Backend/routes/googleReviews/handlers/widget.js:171-182 | five entries, for 5 down to 1 stars, each holding the number of reviews with that rating |
| ReviewList.DistributionTotal | Backend/routes/googleReviews/handlers/widget.js:171-182 | the five counts add up to the number of rated reviews |
| ReviewList.Insert | Backend/routes/googleReviews/handlers/widget.js:184-201 | inserting adds exactly the one review to the multiset |
| ReviewList.RanksTotal | Backend/routes/googleReviews/handlers/widget.js:184-201 | of two reviews, one may always come first in the order an option asks for |
| ReviewList.InsertSorted | Backend/routes/googleReviews/handlers/widget.js:184-201 | inserting into a sorted list keeps it sorted |
| ReviewList.SortReviews | Backend/routes/googleReviews/handlers/widget.js:184-201 | the result is a permutation of the reviews. A known option sorts it by rating or by time (missing treated as 0), descending for `highest` and `newest`. An unknown option leaves the order unchanged |
| ReviewList.HighestFirst | Backend/routes/googleReviews/handlers/widget.js:187-189 | under `highest`, the first review's rating is at least that of every review |
| ReviewList.Page | Backend/routes/googleReviews/handlers/widget.js:203-207 | a page has at most 5 reviews, and it is empty iff it starts at or past the end |
| ReviewList.PageIsWindow | Backend/routes/googleReviews/handlers/widget.js:203-207 | page `p` holds the reviews from position `(p - 1) * 5` onwards, in order |
| ReviewList.PageHoldsIndex | Backend/routes/googleReviews/handlers/widget.js:203-207 | review `i` is on page `i / 5 + 1` at position `i % 5`, and on no other page |
| ReviewList.NextPage | Backend/routes/googleReviews/handlers/widget.js:362-369 | the page advances by one iff a further review exists past the current page; otherwise it stays |
| ReviewList.LoadMorePlain | Backend/routes/googleReviews/handlers/widget.js:335-337 | the raw script hides the button iff there are at most 5 reviews, and enables it iff there are more and a further page |
| ReviewList.LoadMoreSafe | Backend/routes/googleReviews/routes/googleReviews/handlers/widget.js:430 | the sanitized script never renders a disabled button, and enables it exactly when the raw script does |
| ReviewList.LoadMoreAgreesWithGuard | Backend/routes/googleReviews/routes/googleReviews/handlers/widget.js:430 | in both scripts the button is enabled iff a click advances the page, and the page a click reaches is never empty |
| ReviewList.IndexedReviewList.constructor | Backend/routes/googleReviews/handlers/widget.js:166-169 | the list starts sorted by `newest` on page 1 with nothing liked |
| ReviewList.IndexedReviewList.ChangeSort | Backend/routes/googleReviews/handlers/widget.js:351-360 | a sort change sets the option and returns to page 1, keeping the reviews and likes |
| ReviewList.IndexedReviewList.LoadMore | Backend/routes/googleReviews/handlers/widget.js:362-369 | a click moves to `NextPage` and changes nothing else; the page stays in range |
| ReviewList.IndexedReviewList.ToggleLike | Backend/routes/googleReviews/handlers/widget.js:386-395 | the index's membership in the liked set flips; nothing else changes |
| ReviewList.PersistentReviewList.constructor | Backend/routes/googleReviews/routes/googleReviews/handlers/widget.js:179-180 | likes are restored from storage. The sort option is the stored one, or `newest` when none or an empty one is stored. The list starts on page 1 |
| ReviewList.PersistentReviewList.ChangeSort | Backend/routes/googleReviews/routes/googleReviews/handlers/widget.js:463-470 | a sort change sets and persists the option and returns to page 1 |
| ReviewList.PersistentReviewList.LoadMore | Backend/routes/googleReviews/routes/googleReviews/handlers/widget.js:472-481 | a click moves to `NextPage`; storage is untouched |
| ReviewList.PersistentReviewList.ToggleLike | Backend/routes/googleReviews/routes/googleReviews/handlers/widget.js:501-517 | the likes become `ToggledLikes` of the old ones and are persisted; nothing else changes |
| ReviewList.ToggledLikes | Backend/routes/googleReviews/routes/googleReviews/handlers/widget.js:505-513 | afterwards the id is liked iff it was not liked before; every other id is unchanged |
| ReviewList.LikeTwiceRestores | Backend/routes/googleReviews/routes/googleReviews/handlers/widget.js:505-513 | two toggles of an id that was absent or liked restore the likes |
| ReviewList.LikeTwiceDropsFalse | Backend/routes/googleReviews/routes/googleReviews/handlers/widget.js:505-513 | an id stored as `false` is deleted by two toggles |
| ReviewsWidgetScript.NotFoundBody | Backend/routes/googleReviews/handlers/widget.js:11 | the 404 script names the unknown client id |
| ReviewsWidgetScript.Respond | Backend/routes/googleReviews/handlers/widget.js:4-12 | 404 iff the client id is not in the table; otherwise the script for that client's configuration |
| ReviewsWidgetScript.BackendUrlSafe | Backend/routes/googleReviews/routes/googleReviews/handlers/widget.js:22 | the backend URL is never empty; it is the configured base URL when that is non-empty, else the default backend |
| ReviewsWidgetScript.RawSizeClass | Backend/routes/googleReviews/handlers/widget.js:212 | a class exists iff every pasted literal of the raw script reads back; a size that is not one of the three keys then adds the class text `undefined` |
| ReviewsWidgetScript.SafeWidgetSize | Backend/routes/googleReviews/routes/googleReviews/handlers/widget.js:16 | the configured size when truthy, else `medium` |
| ReviewsWidgetScript.SizeClass | Backend/routes/googleReviews/routes/googleReviews/handlers/widget.js:23-27 | the `WIDGET_SIZE_CLASSES` table: a class exists iff the key is `small`, `medium` or `large`, and `large` gives the script's own large class |
| ReviewsWidgetScript.SizeClassOf | Backend/routes/googleReviews/routes/googleReviews/handlers/widget.js:232 | the lookup runs iff the pasted size reads back, and then yields one of the three size classes |
| ReviewsWidgetScript.SafeSizeClass | Backend/routes/googleReviews/routes/googleReviews/handlers/widget.js:232 | any class the sanitized script computes is one of the three size classes; for a size without quotes, backslashes or line breaks it is that size's class, or `max-w-md` |
| ReviewsWidgetScript.SizeInjection | Backend/routes/googleReviews/routes/googleReviews/handlers/widget.js:16 | a size of the form `key'] \|\| 'X' \|\| WIDGET_SIZE_CLASSES['y` turns the pasted lookup into code that yields the class `X`, and the modelled lookup does not read back |
| ReviewsWidgetScript.EscapedSizeClass | Backend/routes/googleReviews/routes/googleReviews/handlers/widget.js:16 | with the size escaped for the literal, the class is always one of the three, and it is the class of the configured size, or `max-w-md` |
| ReviewsWidgetScript.MissingSizeClasses | Backend/routes/googleReviews/routes/googleReviews/handlers/widget.js:232 | a missing size gives `undefined` in the raw script and `max-w-md` in the sanitized one |
| ReviewsWidgetScript.KnownSizesAgree | Backend/routes/googleReviews/routes/googleReviews/handlers/widget.js:23-27 | when the raw script runs, the two scripts agree for `small` and `medium` |
| ReviewsWidgetScript.KeepAlnum | Backend/routes/googleReviews/routes/googleReviews/handlers/widget.js:15 | the result holds only ASCII letters and digits, is no longer than the input, and equals the input when that has nothing else |
| ReviewsWidgetScript.KeepAlnumAppend | Backend/routes/googleReviews/routes/googleReviews/handlers/widget.js:15 | removing the other characters distributes over concatenation, so letters and digits keep their order |
| ReviewsWidgetScript.KeepAlnumDropsOthers | Backend/routes/googleReviews/routes/googleReviews/handlers/widget.js:15 | any other character is removed, so the result is strictly shorter |
| ReviewsWidgetScript.SafeThemeColor | Backend/routes/googleReviews/routes/googleReviews/handlers/widget.js:15 | the colour holds only letters and digits; it is `blue` when the configured one is falsy |
| ReviewsWidgetScript.EscapeQuotes | Backend/routes/googleReviews/routes/googleReviews/handlers/widget.js:17-18 | escaping never shortens the text and leaves a text without quotes unchanged |
| ReviewsWidgetScript.EscapeQuotesBreaksLiteral | Backend/routes/googleReviews/routes/googleReviews/handlers/widget.js:549 | a value starting with a backslash and a quote no longer reads back once escaped as written |
| ReviewsWidgetScript.EscapeQuotesKeepsLineBreak | Backend/routes/googleReviews/routes/googleReviews/handlers/widget.js:549 | a value starting with a line break no longer reads back once escaped as written |
| ReviewsWidgetScript.EscapeChar | Backend/routes/googleReviews/routes/googleReviews/handlers/widget.js:17 | each character becomes one or two characters |
| ReviewsWidgetScript.EscapeForLiteral | Backend/routes/googleReviews/routes/googleReviews/handlers/widget.js:17 | the corrected escape, character by character; `EscapeForLiteralRoundTrip` states that it reads back |
| ReviewsWidgetScript.SafePlaceId | Backend/routes/googleReviews/routes/googleReviews/handlers/widget.js:17 | the configured id, or empty text, with the corrected escape; `SafeScriptFetchesIffPlaceId` states what the script then does |
| ReviewsWidgetScript.EscapeForLiteralRoundTrip | Backend/routes/googleReviews/routes/googleReviews/handlers/widget.js:17 | with the corrected escape, any value placed between quotes reads back as itself |
| ReviewsWidgetScript.EscapeForLiteralExtendsEscapeQuotes | Backend/routes/googleReviews/routes/googleReviews/handlers/widget.js:17 | on values without backslashes or line breaks the corrected escape equals the written one |
| ReviewsWidgetScript.PlaceIdTest | Backend/routes/googleReviews/routes/googleReviews/handlers/widget.js:549 | the test runs iff the pasted id reads back, and is true iff the id read back is non-empty |
| ReviewsWidgetScript.SafeScriptFetches | Backend/routes/googleReviews/routes/googleReviews/handlers/widget.js:549 | the script runs iff both the pasted size and the pasted id read back, and then fetches iff the id is non-empty |
| ReviewsWidgetScript.SafeScriptFetchesIffPlaceId | Backend/routes/googleReviews/routes/googleReviews/handlers/widget.js:549 | with the place id escaped as corrected and a size the script pastes safely, the script runs and fetches the place iff a place id is configured |
| ReviewsWidgetScript.WrittenScriptFetchesIffPlaceId | Backend/routes/googleReviews/routes/googleReviews/handlers/widget.js:17 | with the place id escaped as written (quotes only), the same holds for every id without backslashes or line breaks, quotes included; the other ids are the escape finding |
| ReviewsWidgetScript.QuotedSizeStopsScript | Backend/routes/googleReviews/routes/googleReviews/handlers/widget.js:16 | a size holding a quote after plain text stops the sanitized script, whatever the place id |
| ReviewsWidgetScript.EscapedScriptFetchesIffPlaceId | Backend/routes/googleReviews/routes/googleReviews/handlers/widget.js:16-17 | with the size escaped too, the script runs for every configuration and fetches iff a place id is configured |
| ReviewsWidgetScript.Unquote | Backend/routes/googleReviews/routes/googleReviews/handlers/widget.js:549 | what a single-quoted JavaScript literal with the given body evaluates to, or nothing when the body ends the literal early; `PlainUnquote`, `UnquoteAppend` and `QuoteStopsUnquote` state its behaviour |
| ReviewsWidgetScript.PlainUnquote | Backend/routes/googleReviews/handlers/widget.js:425 | a text without quotes, backslashes or line breaks reads back as itself |
| ReviewsWidgetScript.PlainPrefixUnquote | Backend/routes/googleReviews/handlers/widget.js:425 | plain text in front of a literal's body is read back unchanged, and reading succeeds iff it succeeds on the rest |
| ReviewsWidgetScript.UnquoteAppend | Backend/routes/googleReviews/handlers/widget.js:425 | two bodies that read back read back as one when joined |
| ReviewsWidgetScript.UnquoteAppendFails | Backend/routes/googleReviews/handlers/widget.js:425 | a body that does not read back still fails when text not starting with an escape is appended |
| ReviewsWidgetScript.QuoteStopsUnquote | Backend/routes/googleReviews/handlers/widget.js:425 | a quote after plain text ends the literal, so the body does not read back |
| ReviewsWidgetScript.RawClassTextReadsBack | Backend/routes/googleReviews/handlers/widget.js:212 | the class literal with the theme colour pasted reads back iff the colour does |
| ReviewsWidgetScript.RawScriptParsesIff | Backend/routes/googleReviews/handlers/widget.js:425 | the raw script runs iff the class text, the size, the place id, `place_id:` with the id, and the name each read back |
| ReviewsWidgetScript.RawQuery | Backend/routes/googleReviews/handlers/widget.js:425 | the query the raw script computes from its pasted literals; `RawQueryMeaning` states it |
| ReviewsWidgetScript.RawQueryMeaning | Backend/routes/googleReviews/handlers/widget.js:425 | a query exists iff the raw script runs; it is `place_id:` with the id read back when that is non-empty, else the name read back |
| ReviewsWidgetScript.RawNameQuoteStopsScript | Backend/routes/googleReviews/handlers/widget.js:425 | a place name holding a quote after plain text stops the raw script, so no query is made |
| ReviewsWidgetScript.EscapedRawQuery | Backend/routes/googleReviews/handlers/widget.js:425 | with every value escaped for the literal, the raw script always runs and computes the query `place_id:<id>` for a non-empty id, else the name; the query is non-empty, so the fetch by client id starts, iff the id or the name is |
| ReviewsWidgetScript.PlainConfigRuns | Backend/routes/googleReviews/handlers/widget.js:425 | a configuration whose pasted values are all plain runs as written |
| ReviewsWidgetScript.RawQueryUsesPlaceId | Backend/routes/googleReviews/handlers/widget.js:425 | with plain pasted values, a non-empty place id gives the query `place_id:<id>` |
| ReviewsWidgetScript.RawQueryIgnoresNameWithoutId | Backend/routes/googleReviews/handlers/widget.js:425 | with plain pasted values, a missing place id is pasted as `undefined`, which is truthy, so the query is `place_id:undefined` and the name is never used |
| ReviewsWidgetScript.RawQueryFallsBackToName | Backend/routes/googleReviews/handlers/widget.js:425 | with plain pasted values, only an empty place id falls back to the place name |
| PlacesProxy.KeysDisjoint | Backend/routes/googleReviews/handlers/searchPlace.js:33 | a `reviews_` key never equals a `place_` key, so neither handler serves the other's entries |
| PlacesProxy.ReviewsStep | Backend/routes/googleReviews/routes/googleReviews/handlers/reviews.js:7-66 | 400 `Invalid client ID` for an unknown client and 400 `Missing place ID`, naming the client, when the place id is falsy. A cached place is answered 200 with the cached value, with no call and the cache unchanged. Otherwise the details API is called: a thrown call answers 500 and a non-OK status 404, with the API's message or its status; an OK reply answers 200 with the result and the client's colour and size, stored under the place's key. The cache keeps every existing entry |
| PlacesProxy.ReviewsCachesWhatItReturns | Backend/routes/googleReviews/routes/googleReviews/handlers/reviews.js:48-58 | an OK reply is returned with the client's theme colour and size, and stored as is under the place's key |
| PlacesProxy.ReviewsCacheSharesSettings | Backend/routes/googleReviews/routes/googleReviews/handlers/reviews.js:22-27 | after one client's request fills the cache, a second client with the same place id is answered from the cache with the first client's colour and size |
| PlacesProxy.ReviewsStepIntended | Backend/routes/googleReviews/routes/googleReviews/handlers/reviews.js:22-58 | the same calls and cache as `ReviewsStep`, but every 200 answer carries the requesting client's colour and size |
| PlacesProxy.IntendedKeepsOwnSettings | Backend/routes/googleReviews/routes/googleReviews/handlers/reviews.js:22-58 | with the intended answer, the second client of a shared place gets its own colour and size, still from the cache |
| PlacesProxy.ReviewsRepeatHitsCache | Backend/routes/googleReviews/routes/googleReviews/handlers/reviews.js:22-27 | after any 200 answer, the same request is answered the same way from the cache, without an upstream call |
| PlacesProxy.ResolvePlaceId | Backend/routes/googleReviews/handlers/searchPlace.js:14-32 | find-place is called iff the query does not start with `place_id:`; such a query resolves to the text after the prefix. Otherwise the first candidate is used. No candidate or a non-OK status answers 404 `Place not found`, and a thrown call answers 500 |
| PlacesProxy.SearchStep | Backend/routes/googleReviews/handlers/searchPlace.js:6-59 | 400 `Query is required` for a missing or empty query. A find-place 404 or 500 is the answer as `ResolvePlaceId` gives it, with the cache unchanged. A resolved id whose entry is cached is answered 200 with that entry and no details call. Otherwise details are fetched: a non-OK reply answers 404, a thrown call 500, and an OK reply answers 200 with the result, stored under the resolved id's key. The cache keeps every existing entry |
| PlacesProxy.SearchByPlaceIdSkipsFind | Backend/routes/googleReviews/handlers/searchPlace.js:30-54 | a `place_id:` query skips find-place and fetches and caches the details of the rest of the query |
| PlacesProxy.SearchRepeatHitsCache | Backend/routes/googleReviews/handlers/searchPlace.js:33-38 | after any 200 answer, the same query is answered the same way from the cache, without an upstream call |
| PlacesProxy.ResponseCache.constructor | Backend/routes/googleReviews/handlers/searchPlace.js:3 | the cache starts empty |
| PlacesProxy.ResponseCache.Reviews | Backend/routes/googleReviews/routes/googleReviews/handlers/reviews.js:7-66 | the handler answers, updates the cache and calls upstream as `ReviewsStep` decides |
| PlacesProxy.ResponseCache.SearchPlace | Backend/routes/googleReviews/handlers/searchPlace.js:6-59 | the handler answers, updates the cache and calls upstream as `SearchStep` decides |
| Auth.FindOne | Backend/routes/googleReviews/controllers/authController.js:12 | the first user in collection order that the query matches, or -1 exactly when none does |
| Auth.DuplicateField | Backend/models/Signup.js:7-21 | no field iff neither the email nor an indexed phone is taken; `email` iff the email is taken, since that index is checked first |
| Auth.SignupStep | Backend/routes/googleReviews/controllers/authController.js:5-28 | 400 when username, email or password is falsy. 400 when the lookup finds a user by email or phone. 201 iff the insert passes the required fields and both unique indexes and the database succeeds, and then exactly one user is appended. Any other answer leaves the collection unchanged |
| Auth.SignupKeepsUsersValid | Backend/models/Signup.js:2-26 | sign-up keeps required fields filled, ids unique, emails unique and indexed phones unique |
| Auth.DuplicateEmailNamed | Backend/routes/googleReviews/controllers/authController.js:20-25 | a duplicate email that the lookup missed is refused by the index with `User with this email already exists` |
| Auth.LoginStep | Backend/routes/googleReviews/controllers/authController.js:29-70 | 400 without a password or without both email and phone; 401 `User does not exist` when nothing matches; 401 `Invalid credentials` when the hash comparison fails. Otherwise the token for the first matching user and that user without the password |
| Auth.SignupThenLogin | Backend/routes/googleReviews/controllers/authController.js:5-65 | whoever signs up can log in with the same email and password, given a comparison that accepts a password against its own hash |
| Auth.UserStore.constructor | Backend/models/Signup.js:28 | the collection starts empty and valid |
| Auth.UserStore.Signup | Backend/routes/googleReviews/controllers/authController.js:5-28 | the collection becomes what `SignupStep` decides, and its invariants are kept |
| WhatsAppForm.InitialFormData | Frontend/src/components/widgets/WhatsAppWidget.jsx:5-13 | the form starts with exactly the seven fields: an empty phone and the server's default colour and position |
| WhatsAppForm.ImageCheck | Frontend/src/components/widgets/WhatsAppWidget.jsx:28-41 | a file is accepted iff its type matches `jpeg\|jpg\|png` and it is at most 5 MiB; the type is checked first |
| WhatsAppForm.SizeBoundary | Frontend/src/components/widgets/WhatsAppWidget.jsx:33 | exactly 5 MiB passes, and one byte more is refused as too large |
| WhatsAppForm.FormTypeMatchesServer | Frontend/src/components/widgets/WhatsAppWidget.jsx:31-32 | for a file the form accepts, the server's upload filter accepts iff the extension matches |
| WhatsAppForm.FormAcceptedIsStored | Frontend/src/components/widgets/WhatsAppWidget.jsx:31-39 | an image the form accepts, with a matching extension, is stored by the upload middleware: the form's 5 MB check and the server's limit agree |
| WhatsAppForm.WidgetForm.constructor | Frontend/src/components/widgets/WhatsAppWidget.jsx:5-21 | the form starts in its reset state |
| WhatsAppForm.WidgetForm.HandleTextChange | Frontend/src/components/widgets/WhatsAppWidget.jsx:23-26 | only the named field changes, and the error is cleared |
| WhatsAppForm.WidgetForm.HandleImageChange | Frontend/src/components/widgets/WhatsAppWidget.jsx:28-48 | no file changes nothing. A rejected file sets its error and keeps the previous image. An accepted file is kept, the error cleared and the preview set |
| WhatsAppForm.WidgetForm.HandleSubmit | Frontend/src/components/widgets/WhatsAppWidget.jsx:50-90 | the form is posted iff the phone matches the pattern; otherwise the phone error is shown. A success shows the code tab with the returned snippet and id. A failure shows the server's error or a generic one and clears the results |
| WhatsAppForm.WidgetForm.ResetForm | Frontend/src/components/widgets/WhatsAppWidget.jsx:97-115 | every field and result returns to its initial value |
| WhatsAppForm.InitialFormDoesNotPost | Frontend/src/components/widgets/WhatsAppWidget.jsx:6 | the untouched form's empty phone never passes the check |
| GoogleReviewsForm.HexDigit | Frontend/src/components/widgets/GoogleReviewsWidget.jsx:493 | a digit's `toString(16)` is a lower-case hex digit |
| GoogleReviewsForm.VariantNibble | Frontend/src/components/widgets/GoogleReviewsWidget.jsx:492 | the `y` digit `(r & 0x3) \| 0x8` is `r % 4 + 8`, so between 8 and 11 |
| GoogleReviewsForm.TemplateLayout | Frontend/src/components/widgets/GoogleReviewsWidget.jsx:490 | the template has 36 characters: hyphens at 8, 13, 18 and 23, `4` at 14 and `y` only at 19 |
| GoogleReviewsForm.GenerateClientId | Frontend/src/components/widgets/GoogleReviewsWidget.jsx:489-495 | each `x` of the template becomes a random hex digit and `y` a variant digit, the rest is kept; `GeneratedIdIsV4` and `EveryV4IdCanBeGenerated` state what that yields |
| GoogleReviewsForm.GeneratedIdIsV4 | Frontend/src/components/widgets/GoogleReviewsWidget.jsx:489-495 | every generated id has the version-4 layout of section 4.4 of RFC 4122 |
| GoogleReviewsForm.HexValue | Frontend/src/components/widgets/GoogleReviewsWidget.jsx:493 | the value whose `toString(16)` is the given hex digit |
| GoogleReviewsForm.EveryV4IdCanBeGenerated | Frontend/src/components/widgets/GoogleReviewsWidget.jsx:489-495 | conversely, every string of that layout is produced by some sequence of draws |
| GoogleReviewsForm.SuggestionsWanted | Frontend/src/components/widgets/GoogleReviewsWidget.jsx:22 | a request is sent iff the input has at least 2 characters, all of them letters, digits or spaces |
| GoogleReviewsForm.PunctuationBlocksSuggestions | Frontend/src/components/widgets/GoogleReviewsWidget.jsx:22 | a single quote anywhere stops the request |
| GoogleReviewsForm.InitialConfig | Frontend/src/components/widgets/GoogleReviewsWidget.jsx:83-90 | the form starts with exactly the six fields, empty place and error, search off, `teal` and `medium` |
| GoogleReviewsForm.SearchQuery | Frontend/src/components/widgets/GoogleReviewsWidget.jsx:547 | `place_id:<id>` when the place id is truthy, else the place name |
| GoogleReviewsForm.QueryWithIdIsPrefixed | Frontend/src/components/widgets/GoogleReviewsWidget.jsx:547 | a truthy place id always yields a `place_id:` query |
| GoogleReviewsForm.ConfigForm.constructor | Frontend/src/components/widgets/GoogleReviewsWidget.jsx:8-11 | the form starts with the initial configuration, no suggestions, auto-save off, on the settings tab |
| GoogleReviewsForm.ConfigForm.FetchSuggestions | Frontend/src/components/widgets/GoogleReviewsWidget.jsx:21-42 | a request is made iff `SuggestionsWanted`. The guard clears the list. A reply fills and shows the list, and a failure records its error in the configuration |
| GoogleReviewsForm.ConfigForm.HandleChange | Frontend/src/components/widgets/GoogleReviewsWidget.jsx:71-80 | only the named field changes, to the flag for the checkbox and the text otherwise. The form submits iff auto-save is on and the field is not the place name |
| GoogleReviewsForm.ConfigForm.ResetForm | Frontend/src/components/widgets/GoogleReviewsWidget.jsx:82-96 | the configuration, input, suggestions, auto-save and tab return to their starting values |
| GoogleReviewsForm.ConfigForm.SaveConfig | Frontend/src/components/widgets/GoogleReviewsWidget.jsx:518-538 | a request is posted iff the place id and name are both truthy. Success keeps the returned client id. A failure, or the missing-field error, is recorded in both error fields |
| GoogleReviewsForm.ConfigForm.HandleSubmit | Frontend/src/components/widgets/GoogleReviewsWidget.jsx:540-551 | success iff the save posted and succeeded, and then the code tab shows with the returned client id. A missing name or id leaves the required-fields error; a failed save leaves the server's message (or the fallback) as the error, both also written into the configuration. The preview searches the query of the configuration as it was, whatever the save did. Suggestions, their visibility, auto-save and the search input are untouched |
| GoogleReviewsForm.ConfigForm.HandleSuggestionSelect | Frontend/src/components/widgets/GoogleReviewsWidget.jsx:553-564 | the name and id come from the suggestion and the error field is cleared; the place is searched by `place_id:` and the id; the search box, the suggestion list and its visibility, and the rest of the form are untouched |
| GoogleReviewsForm.ConfigForm.HandleSuggestionClick | Frontend/src/components/widgets/GoogleReviewsWidget.jsx:62-69 | the search box shows the suggestion's text, the selection is applied as `HandleSuggestionSelect` does, and the suggestion list is hidden; the rest of the form is untouched |
| GoogleReviewsForm.SelectThenSubmitSameQuery | Frontend/src/components/widgets/GoogleReviewsWidget.jsx:547-561 | after selecting a suggestion with an id, a submit searches for the same query the selection did |
| LoginForm.ValidateEmail | Frontend/src/pages/Login.jsx:49-52 | an accepted address holds an `@`, and not as its first character; `ValidateEmailMatchesPattern` states the full regular expression |
| LoginForm.ValidateEmailSound | Frontend/src/pages/Login.jsx:49-52 | every address the first-`@` check accepts matches the email regular expression |
| LoginForm.ValidateEmailComplete | Frontend/src/pages/Login.jsx:49-52 | every address the email regular expression matches passes the first-`@` check |
| LoginForm.ValidateEmailMatchesPattern | Frontend/src/pages/Login.jsx:49-52 | the email check accepts exactly the strings the regular expression matches |
| LoginForm.EmailAtIsFirst | Frontend/src/pages/Login.jsx:50 | in a matching address the `@` is the first one, since no run may contain another |
| LoginForm.ValidatePhone | Frontend/src/pages/Login.jsx:54-56 | accepted iff the number is an optional plus sign followed by 10 to 15 digits |
| LoginForm.LoginPhoneWidensWidgetPhone | Frontend/src/pages/Login.jsx:54-56 | every number the WhatsApp form accepts also logs in, and bare digit strings log in but are refused by the form |
| LoginForm.LoginCheck | Frontend/src/pages/Login.jsx:62-85 | a missing identifier or password comes first, then the identifier's format, then a password under 6 characters: a well-formed active identifier with a non-empty password under 6 characters gets `Password must be at least 6 characters`. The request goes out iff the active identifier is well formed and the password has at least 6 characters |
| LoginForm.InactiveIdentifierIgnored | Frontend/src/pages/Login.jsx:62-80 | the identifier of the mode not in use never changes the outcome of the checks |
| LoginForm.MountedEmail | Frontend/src/pages/Login.jsx:22-23 | the mount finds an email iff a non-empty `rememberedEmail` is stored, and it is that value |
| LoginForm.Remembered | Frontend/src/pages/Login.jsx:90-94 | with "remember me" the entry is set to the email, or to empty text in phone mode; without it the entry is removed; every other entry is kept |
| LoginForm.LoginPage.constructor | Frontend/src/pages/Login.jsx:20-27 | the mount fills the email field and ticks "remember me" exactly when `MountedEmail` finds a remembered email; otherwise both stay empty |
| LoginForm.LoginPage.HandleEmailLogin | Frontend/src/pages/Login.jsx:58-114 | a failed check sets its message and sends nothing. Otherwise the remembered email is stored or removed, only the active identifier and the password are sent, and a token is stored on success or the server's message shown on failure |
| LoginForm.LoginPage.HandleForgotPassword | Frontend/src/pages/Login.jsx:116-139 | a reset goes out iff the active identifier is present and well formed, and it goes to that identifier; otherwise the missing or invalid message is set |
| LoginForm.RememberedEmailRestored | Frontend/src/pages/Login.jsx:90-91 | a well-formed email logged in with "remember me" is what the next mount restores |
| LoginForm.PhoneModeForgetsEmail | Frontend/src/pages/Login.jsx:90-91 | a phone log-in with "remember me" stores an empty email, which the next mount treats as nothing remembered |
| LoginForm.RememberRoundTrip | Frontend/src/pages/Login.jsx:20-27 | after a log-in stores its token, the next mount restores the email iff "remember me" was ticked in email mode |
| LoginForm.RemountAfterLogin | Frontend/src/pages/Login.jsx:20-102 | a successful log-in followed by a fresh mount of the page shows the email and ticks "remember me" iff it was ticked in email mode; otherwise both are empty |
| WidgetGallery.FilterWidgets | Frontend/src/pages/Widget.jsx:69-72 | the filtered list holds exactly the cards whose lower-cased name or description contains the lower-cased query, and is never longer |
| WidgetGallery.FilterAppend | Frontend/src/pages/Widget.jsx:69-72 | the filter decides card by card, so it keeps the catalogue order |
| WidgetGallery.EmptyQueryKeepsAll | Frontend/src/pages/Widget.jsx:69-72 | an empty search shows every card |
| WidgetGallery.FilterIdempotent | Frontend/src/pages/Widget.jsx:69-72 | filtering the filtered list again with the same query changes nothing |
| WidgetGallery.QueryCaseIgnored | Frontend/src/pages/Widget.jsx:70-71 | the letter case of the query does not change which cards match |
| WidgetGallery.Substr | Frontend/src/pages/Widget.jsx:42 | the result is at most `length` long and is the slice from `start` clipped to the string's end |
| WidgetGallery.HandleCardClick | Frontend/src/pages/Widget.jsx:32-67 | the WhatsApp card goes to its builder with the sample number and a widget id starting with `wa-` of at most 12 characters. The reviews card goes to its builder, any other card to the dashboard, and the card's id, name and description always travel along |
| WidgetGallery.CatalogueCardsHaveBuilders | Frontend/src/pages/Widget.jsx:13-67 | neither card of the gallery leads to the dashboard |
| JsText.JsInterp | Backend/routes/googleReviews/handlers/widget.js:93 | interpolating a string gives that string; an absent or null field gives a non-empty word instead (`undefined`, `null`) |
| JsText.Contains | Frontend/src/pages/Widget.jsx:69-72 | `includes`: true iff the pattern occurs at some index |
| JsText.Interp | Backend/routes/googleReviews/routes/googleReviews/handlers/reviews.js:11 | a string or `undefined` used as a property key or pasted into text: the string, or the word `undefined` |
| JsText.Or | Backend/routes/googleReviews/routes/googleReviews/handlers/reviews.js:44 | `v \|\| d` on a string or `undefined`: the value when it is non-empty, else the default |
| JsText.IndexOf | Backend/routes/googleReviews/handlers/searchPlace.js:31 | the index returned is where the pattern first occurs, and none is returned iff the pattern does not occur at all |
| JsText.ReplaceFirst | Backend/routes/googleReviews/handlers/searchPlace.js:31 | a string without the pattern comes back unchanged; otherwise the pattern's first occurrence, and only that one, is replaced |
| JsText.ReplacePrefix | Backend/routes/googleReviews/handlers/searchPlace.js:31 | when the string starts with the pattern, replacing it by nothing drops exactly that prefix |
| JsText.TrimEmptyIff | Backend/routes/whatsappWidget1.js/handlers/serveWidgetScript.js:521 | a string trims to empty iff it is all white space |
| JsText.Trim | Backend/routes/whatsappWidget1.js/handlers/serveWidgetScript.js:521 | `trim()`: the input without leading and trailing white space; `TrimEmptyIff` and `TrimShape` state it |
| JsText.TrimShape | Backend/routes/whatsappWidget1.js/handlers/serveWidgetScript.js:521 | the trimmed text is a piece of the input and neither starts nor ends with white space |
| JsText.ToLower | Frontend/src/pages/Widget.jsx:70 | lower-casing keeps the length and maps each character on its own |
| JsText.ToLowerIdempotent | Frontend/src/pages/Widget.jsx:70-71 | lower-casing twice is lower-casing once |

## Left out

- Network, file-system and database I/O: upstream replies, stored lists, uploaded files and storage contents are parameters or fields; failures are explicit reply cases.
- Randomness, clocks, hashing, token signing, `uuid` and `Math.random`: their outputs are parameters.
- The response cache has no expiry in this model; `config/cache.js` is not part of this model.
- JSON parsing of values that are not objects, and keys inherited from `Object.prototype`, are not modelled.
- Request-body fields that are numbers or booleans are not modelled: a field is a string, `undefined` or `null`. For example, a numeric `placeId` from `generateClient` would make the sanitized reviews script's `.replace` throw.
- `toLowerCase` is modelled on ASCII letters only; lengths count characters, not UTF-16 code units.
- Timers, `FileReader` and other browser callbacks are modelled as completed events; the DOM, CSS and animation are left out.
- Percentages formatted with `toFixed` in the reviews widget are not modelled.
- `path.extname` is a parameter of the upload filter.
- Concurrent requests and interleaved writes to the stores are not modelled; each handler runs to completion.
- ReviewList.SortReviews: the sort's stability is not stated.
- Ratings outside 0 to 5, and fractional ratings, are not modelled.
- ReviewsWidgetScript.Unquote: it decodes only the escapes `\\`, `\'`, `\n` and `\r`, which are the ones the escaping functions produce.
- The 500 reply of `getWidget` is unreachable in the typed model, since the lookup cannot throw.
- The client id that `saveConfig` generates is computed but never sent, so it is not modelled.
- ReviewsWidgetScript.RawQuery: the raw reviews script pastes its values into single-quoted literals unescaped; a value that does not read back stops the whole script, and the model then answers `None`. The backtick-template, HTML and CSS interpolations of the same values (for example `Backend/routes/googleReviews/handlers/widget.js` lines 93, 249, 272 and 278), the `clientId` pasted into the double-quoted literal at line 403, and the 404 body are not modelled.
- The HTML-attribute uses of `safePlaceId` in the sanitized reviews script are not modelled.
- The log-in user lookup's matching of a stored user against the `$or` query is a parameter.
- Auth.DuplicateField: when a new user violates both the email and the phone index, which error the database reports is not fixed; the model reports the email.
- Form fields outside the known configuration keys are not modelled.
- The error texts produced by the HTTP client are parameters.
- The reviews preview search itself is not modelled: submitting returns the query it would search, and the empty-query guard in front of that search is left out.
- The DOM guard `if (!btn) return` of the like button is left out.
- Auth.UserStore.Signup: the freshness of the new user id is a parameter, so the store stays valid only when that id is new.
- WhatsAppStore: only which stored image is deleted is modelled, not the path computation that locates the file.
- The behaviour of the HTML sanitizer is a parameter.
- ChatScriptMongo.ServeWidgetScript: the id is typed as a string. `sanitizeInput` returns a non-string unchanged (`Backend/routes/googleReviews/routes/whatsappWidget1.js/utils/sanitize.js:4`), so a query such as `?widgetId[$ne]=x` reaches the database lookup as an operator object and matches some other widget; that operator injection is not modelled.
- PlacesProxy.SearchStep: the query is typed as a string. A repeated `?query=` arrives as an array, and `query.startsWith` then throws inside the handler (answered 500); that case is not modelled.
- ChatScript.ChatSession.Toggle, ChatScript.ChatSession.WelcomeArrives, ChatScript.ChatSession.SendMessage, ChatScript.ChatSession.DeliveryTick, ChatScript.ChatSession.AttachImage: a `localStorage` write that throws is modelled by `storageOk`; the handler then stops, and what it had already put on the page (the greeting, the welcome, the message bubble) is not modelled.
- ChatMessages.MarkLastDelivered: on an empty list the source's `messages[messages.length - 1].delivered = true` throws, and the model returns the list unchanged; the stored list is the same either way, and the case does not arise after a send.

## Findings

| source | as written | input that shows it | evidently intended | confidence | as-written member | corrected member |
|---|---|---|---|---|---|---|
| Backend/routes/googleReviews/routes/whatsappWidget1.js/handlers/serveWidgetScript.js:304-311 | the chat history is saved with `localStorage.setProperty`, which is not a function, so every save throws and is caught and nothing is stored | any save, e.g. the greeting on a first opening, which is then missing on the next visit | save with `localStorage.setItem`, so the saved messages read back | not executed | ChatScriptMongo.SaveAsWrittenLosesGreeting | ChatScriptMongo.SaveIntendedRoundTrip |
| Backend/routes/googleReviews/routes/googleReviews/handlers/widget.js:17 | the place id is escaped by putting a backslash before each `'` only, leaving backslashes and line breaks as they are | a place id starting `\');alert(1);//`, or one holding a line break | escape backslashes first, then quotes and line breaks, so any value reads back as itself | not executed | ReviewsWidgetScript.EscapeQuotesBreaksLiteral | ReviewsWidgetScript.EscapeForLiteralRoundTrip |
| Backend/routes/whatsappWidget1.js/handlers/serveWidgetScript.js:468 | the oversize branch scrolls with `clamp(...)`, which the script never defines, so it throws before `imageUploadInput.value = ''` | a PNG of 5 MiB + 1 byte: the error shows, but the file stays selected, so picking it again fires no change event | reset the input after the size error as after the type error | not executed; a host page that defines a global `clamp` would avoid it | ChatScript.OversizedImageStaysSelected | ChatScript.InputClearedIntended |
| Backend/routes/googleReviews/handlers/widget.js:425 | the place id and the place name are pasted unescaped into single-quoted literals of the served script | place id `ChIJabc` with place name `McDonald's`: the name's quote ends the literal, so the whole script fails to parse and the widget never loads | escape each pasted value for the literal, so the script always runs, computes the query from the id, else the name, and starts the fetch by client id when that query is non-empty | not executed | ReviewsWidgetScript.RawNameQuoteStopsScript | ReviewsWidgetScript.EscapedRawQuery |
| Backend/routes/googleReviews/routes/googleReviews/handlers/widget.js:16 | `safeWidgetSize` is the configured size unescaped, pasted into `WIDGET_SIZE_CLASSES['…']` at lines 232 and 268 | size `x'] \|\| 'evil' \|\| WIDGET_SIZE_CLASSES['y` makes the lookup code yield the class `evil`; size `large'` makes the script fail to parse | escape the size like the place id, so the class is always one of the three size classes | not executed | ReviewsWidgetScript.SizeInjection | ReviewsWidgetScript.EscapedSizeClass |
| Backend/routes/googleReviews/routes/googleReviews/handlers/reviews.js:22 | the reviews cache key is `reviews_` plus the place id only, while the cached value carries the client's `themeColor` and `widgetSize` (lines 48-56) | two clients with the same place id, the first `blue`/`small` and the second `red`/`large`: once the first has loaded, the second is served `blue`/`small` | share the place data but answer each client with its own settings (or key the cache by client too) | not executed | PlacesProxy.ReviewsCacheSharesSettings | PlacesProxy.ReviewsStepIntended |
