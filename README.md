# my-ai-app: a Dafny model of its decision procedures and list operations

The application is a small Next.js weather app. It has a page gate, an OAuth
callback, a per-user search history, two weather proxy routes, and a chat page
where "weather in X" triggers a lookup whose reply can be saved as a card.
Most of the code is framework glue. This project models the decisions and list
operations underneath, with the foreign pieces made abstract:

- The identity provider's session lookup becomes a value, `Sessions.SessionLookup`. It either returned an optional session plus an `error` field, or it threw.
- The database table is a `seq<SearchRecord>` held by the class `SearchHistory.Store`.
- The upstream weather fetch becomes a `JsValues.FetchOutcome`. It is a network error, or a status with a body that parsed as JSON or did not.
- The JavaScript values the routes read are `JsValues.JsValue`. `JsValues.Get` reads a property and throws a TypeError on `null` and `undefined`, as JavaScript does.
- Thrown exceptions become explicit cases, such as `Threw`, `ExchangeThrew`, `TypeError` and `NetworkError`.
- Clock readings and generated message ids are parameters.
- The chat page's component state is the class `ChatPage.ChatState`. A handler that defers work with `setTimeout` returns that work as a `ChatPage.Timer` value, and `ChatState.Fire` is the later step.

Files:

- `wrappers.dfy`: the Option type.
- `seqs.dfy`: `filter`/`find` on sequences and their lemmas.
- `sessions.dfy`: the session lookup.
- `access_gate.dfy`: `middleware.ts`.
- `search_history.dfy`: `app/api/searches/route.ts`.
- `auth_callback.dfy`: `app/auth/callback/route.ts`.
- `js_values.dfy`: JavaScript values, property access and fetch outcomes.
- `weather_route.dfy`: `app/api/weather/route.ts`.
- `weather_summary_route.dfy`: `src/app/api/weather/route.ts`.
- `city_query.dfy`: the city regex and the submit guards of `src/app/page.tsx`.
- `chat_page.dfy`: the state handlers of `src/app/page.tsx`.

Behaviour of the code worth noting:

- The OAuth callback redirects to `/home` whenever the code exchange returns, even if its result reports an error, such as for a replayed code. Only an exchange that throws leads to `/signin`.
- POST `/api/searches` stores `city` exactly as sent. There is no non-empty check.
- The search-history listing is not strictly ordered: records with equal `createdAt` may both appear. The model breaks such ties with the record stored later first. The database promises no order for them.

## Model

| member | source | states |
|---|---|---|
| AccessGate.Middleware | middleware.ts:5-49 | The callback path always passes through. On `/signin` the gate redirects to `/home` exactly when a session exists, and passes through otherwise. Any other path passes exactly when a session exists and redirects to `/signin` otherwise. A throwing lookup redirects to `/signin` (fail closed). Only the two redirect targets occur. |
| AccessGate.CallbackIgnoresSession | middleware.ts:10-13 | For `/auth/callback` the result passes through whatever the session lookup would give. |
| AccessGate.SessionErrorIgnored | middleware.ts:19-44 | The `error` field returned beside the session never changes the outcome. |
| AccessGate.GateRunsOnIff | middleware.ts:52 | States the matcher predicate `GateRunsOn`, which is written as the pattern itself, in plain terms. A path is accepted exactly when it starts with `/` and the rest has no line terminator. The rest must also not start with `api`, `_next/static`, `_next/image`, or `favicon` + any one character + `ico`. |
| AccessGate.FaviconAlternative | middleware.ts:52 | The unescaped `.` in `favicon.ico` matches any character except a line terminator. |
| AccessGate.Gate | middleware.ts:51-53 | A request the matcher rejects passes through untouched, and only a matched path is ever redirected. A matched page other than the callback and `/signin` is let through only with a session (fail closed). The result is a redirect to `/home` exactly for `/signin` with a session. |
| AccessGate.ApiPathsBypassGate | middleware.ts:52 | Every `/api...` path passes through without a session check. |
| AccessGate.PageRoutesAreGated | middleware.ts:52 | `/home` and `/signin` go through the middleware. `/auth/callback` always passes. |
| SearchHistory.OwnedBy | app/api/searches/route.ts:15-18 | A record is in the result exactly when it is in the store and owned by the user. |
| SearchHistory.SortNewestFirst | app/api/searches/route.ts:19-21 | The result is ordered newest first and is a permutation of its input. |
| SearchHistory.Recent | app/api/searches/route.ts:15-23 | The result has at most 5 records, all from the store and all owned by the user. It holds min(5, number owned) records, ordered newest first, drawn from the owned records. No owned record left out is newer than any record returned. |
| SearchHistory.OthersRecordsInvisible | app/api/searches/route.ts:15-18 | A record created under another user's id leaves a user's listing exactly as it was. |
| SearchHistory.NewRecordListedFirst | app/api/searches/route.ts:15-48 | A record strictly newer than every stored record, appended to the store, is element 0 of its owner's listing. |
| SearchHistory.Store.Get | app/api/searches/route.ts:6-30 | No session gives 401 `Unauthorized`, whatever the store would do. A throwing lookup or store gives 500 `Failed to fetch searches`. Success gives `Recent` of the store for the session's user: owned, newest first, at most 5. |
| SearchHistory.Store.constructor | app/api/searches/route.ts:43-48 | A new store is empty, its first id is 0, and the id invariant holds. |
| SearchHistory.Store.Post | app/api/searches/route.ts:32-55 | No session gives 401 and the store is unchanged. Success appends exactly one record: the city as sent, the session's user id, a fresh id and `now`. Existing records are unchanged and ids stay unique. A throwing lookup, an unparsable body, a missing city or a failing store gives 500 `Failed to create search` and changes nothing. |
| SearchHistory.CreateThenList | app/api/searches/route.ts:6-55 | A POST by a signed-in user with a clock that has moved on, then a GET by the same user: the store gains exactly the new record, the listing has 1 to 5 records, and the new record is first. |
| AuthCallback.Callback | app/auth/callback/route.ts:7-29 | The result is one of two redirects. It is `/home` exactly when a non-empty code is present and the exchange did not throw. The exchange receives the code exactly when it is present and non-empty. |
| AuthCallback.ExchangeErrorIgnored | app/auth/callback/route.ts:18-21 | The value the exchange returns is not inspected: a reported error still redirects to `/home`. |
| AuthCallback.NoCodeNoExchange | app/auth/callback/route.ts:12-24 | Without a (non-empty) code, no exchange is made and the result is `/signin`. |
| JsValues.Get | src/app/api/weather/route.ts:16-24 | Property access throws exactly on `null`/`undefined`. It returns the field of an object that has it, and a defined value only from such a field. |
| JsValues.Path | app/api/weather/route.ts:21 | An empty chain yields the value itself. A chain throws only if it has a key, and it throws when read from `null` or `undefined`. |
| JsValues.PathSnoc | app/api/weather/route.ts:21 | Reading a chain of properties one key longer reads that key from the shorter chain's value, throwing if that did. |
| WeatherRoute.WeatherGet | app/api/weather/route.ts:3-27 | A missing or empty city gives 400 `City parameter is required` and makes no upstream query. Otherwise exactly one query for that city is made. An OK upstream body is returned unchanged. A non-OK one returns `data.error.message` with the upstream status if that status can be sent (200-599). It gives 500 when that read throws or the status cannot be sent. A network or parse failure gives 500 `Failed to fetch weather data`. The status is 200, 400, 500 or a sendable non-OK upstream status. |
| WeatherRoute.UpstreamErrorPropagated | app/api/weather/route.ts:20-21 | An upstream error report `{error: {code, message}}` comes back as `{error: message}` with the upstream status. |
| WeatherRoute.UnsendableStatusFails | app/api/weather/route.ts:18-26 | An upstream status outside 200-599 gives 500, whatever the body, because the response constructor throws. |
| WeatherSummaryRoute.QueryCity | src/app/api/weather/route.ts:7 | A missing or empty city becomes `London`. A given city is used as is. |
| WeatherSummaryRoute.Project | src/app/api/weather/route.ts:15-25 | The projection succeeds exactly when `location.name` and `current.condition.text` can be read. Each of the nine fields is then the value at its upstream path. |
| WeatherSummaryRoute.SummaryJson | src/app/api/weather/route.ts:15-25 | The response object has exactly the nine named keys, each carrying its projected value. |
| WeatherSummaryRoute.WeatherSummaryGet | src/app/api/weather/route.ts:5-29 | Exactly one upstream query is made, for the defaulted city. The response is 200 exactly when the body parsed and the projection succeeded, and then it is the nine-field object. Any other response is 500 `Failed to fetch weather`. |
| WeatherSummaryRoute.UpstreamStatusIgnored | src/app/api/weather/route.ts:10-25 | The upstream status never changes the result. |
| WeatherSummaryRoute.ErrorBodyFails | src/app/api/weather/route.ts:15-28 | A body without `location`, such as the provider's error report, ends in the 500 branch. |
| CityQuery.CityRun | src/app/page.tsx:124 | The greedy group is the longest prefix made of ASCII letters and JavaScript white space. |
| CityQuery.FirstMatch | src/app/page.tsx:124 | The scan finds the leftmost position where `weather in ` (ASCII case ignored) is followed by at least one class character, or reports that none exists. |
| CityQuery.ExtractCity | src/app/page.tsx:124-126 | The result is absent exactly when no position matches. Otherwise it is the maximal class run after the leftmost matching `weather in `: non-empty and made of class characters only. |
| CityQuery.ExtractionPassesGuards | src/app/page.tsx:142-145 | Input from which a city can be extracted is neither blank nor missing `weather in`. |
| CityQuery.ExtractExample | src/app/page.tsx:124-126 | `Weather in Paris?` yields `Paris`. |
| CityQuery.TrimStart | src/app/page.tsx:142 | The result is a suffix of the input. Everything cut off is white space, and the result does not start with white space. |
| CityQuery.TrimEnd | src/app/page.tsx:142 | The result is a prefix of the input. Everything cut off is white space, and the result does not end with white space. |
| CityQuery.IsBlank | src/app/page.tsx:142 | `!input.trim()` holds exactly when every character of the input is JavaScript white space. |
| CityQuery.LowerAscii | src/app/page.tsx:144 | Same length, with each character lowered if it is an ASCII capital. |
| CityQuery.MentionsWeather | src/app/page.tsx:144 | `toLowerCase().includes('weather in')` holds exactly when `weather in` occurs at some position, ASCII case ignored. |
| ChatPage.WeatherQuery | src/app/page.tsx:123-138 | There is no fetch and a null result exactly when no city is extracted. Otherwise the extracted city is queried, and there is a reply exactly when that fetch resolves. |
| ChatPage.WithoutMessage | src/app/page.tsx:194 | A message is kept exactly when it is in the list and has a different id. A list without that id is returned unchanged. |
| ChatPage.WithoutMessageIdempotent | src/app/page.tsx:230 | Removing the same id twice equals removing it once. |
| ChatPage.WithoutMessageCounts | src/app/page.tsx:248 | Every message with another id keeps its number of occurrences. Those with the id are gone. |
| ChatPage.WithoutMessageKeepsOrder | src/app/page.tsx:194 | Removal works piece by piece on a concatenation, and a single message stays exactly when its id differs. So the kept messages keep their order. |
| ChatPage.WithoutTimestamp | src/app/page.tsx:247 | A card is kept exactly when it is in the list and has a different timestamp. |
| ChatPage.WithoutTimestampKeepsOrder | src/app/page.tsx:247 | Removal works piece by piece on a concatenation, and a single card stays exactly when its timestamp differs. So the kept cards keep the order the dropdown shows. |
| ChatPage.WithoutTimestampCounts | src/app/page.tsx:247 | Every card with another timestamp keeps its number of occurrences, duplicates included. Those with the timestamp are gone. |
| ChatPage.FindMessage | src/app/page.tsx:213 | The lookup is absent exactly when no message has the id. Otherwise it is the first message with that id. |
| ChatPage.FindCard | src/app/page.tsx:242 | The result is absent exactly when no card shows the content. Otherwise it is the first card that does. |
| ChatPage.DeleteRemovesMatchedCard | src/app/page.tsx:242-247 | Deleting by the matched card's timestamp removes that card and every card with its timestamp, and keeps every other card. |
| ChatPage.ChatState.constructor | src/app/page.tsx:28-57 | Initial state: no messages, city `London`, the one default card, every marker empty. |
| ChatPage.ChatState.SetInput | src/app/page.tsx:457 | Only the input changes. |
| ChatPage.ChatState.HandleSubmit | src/app/page.tsx:140-165 | Nothing changes for blank input, input without `weather in`, no extractable city, or a rejected fetch. Otherwise the reply is appended as an assistant message under the new id and becomes active, the city becomes current and the input is cleared. Nothing else changes, and `isFromSavedCard` answers as before. |
| ChatPage.ChatState.AcceptReply | src/app/page.tsx:147-161 | Exactly the four fields `handleSubmit` sets on success change. |
| ChatPage.ChatState.ShowReply | src/app/page.tsx:148-154 | Only the message list (one reply appended) and the active id change. |
| ChatPage.ChatState.ClearMessages | src/app/page.tsx:168-170 | Only the messages change, to empty. |
| ChatPage.ChatState.ToggleDropdown | src/app/page.tsx:274 | Only the dropdown flag flips. |
| ChatPage.ChatState.HandleCardSelect | src/app/page.tsx:172-188 | The card's city is queried again. On a reply: the city becomes current and the card's note is displayed. The message is appended and made active, and `isFromSavedCard` then holds for exactly that message's id. The dropdown closes. Otherwise nothing changes. |
| ChatPage.ChatState.ShowCard | src/app/page.tsx:176-186 | Exactly the six fields set by `handleCardSelect` change. |
| ChatPage.ChatState.HandleCloseCard | src/app/page.tsx:191-197 | Only the left slide marker is set. The deferred step holds the message list of that moment. |
| ChatPage.ChatState.HandleSaveCard | src/app/page.tsx:200-203 | The note editor opens for the message with an empty note. Nothing else changes. |
| ChatPage.ChatState.SetSaveNote | src/app/page.tsx:354 | Only the note changes. |
| ChatPage.ChatState.HandleCancelSave | src/app/page.tsx:206-209 | `savingCard` becomes null and the note `''`. Nothing else changes. |
| ChatPage.ChatState.HandleConfirmSave | src/app/page.tsx:212-235 | An unknown id changes nothing and defers nothing. Otherwise `{currentCity, saveNote, message text, now}` goes in front of the unchanged existing cards, the right slide starts, and the removal is deferred with the message list of that moment. |
| ChatPage.ChatState.HandleDeleteSavedCard | src/app/page.tsx:238-252 | Without an active message (null or the empty id) or a card showing the content, nothing changes. Otherwise only the tear animation is set, and the deferred step targets the matched card's timestamp and the active message. |
| ChatPage.ChatState.DismissActive | src/app/page.tsx:410 | Only the active message is cleared. |
| ChatPage.ChatState.Fire | src/app/page.tsx:193-251 | Close: messages become the captured list minus the id, and the slide ends. Save: the same, and the note editor resets. Delete: the current cards lose every card with the timestamp, the current messages lose the id, and the active message and animation clear. `isFromSavedCard` answers as before. |
| ChatPage.ChatState.FinishClose | src/app/page.tsx:193-196 | Only messages (the captured list minus the id) and the slide marker change. |
| ChatPage.ChatState.FinishSave | src/app/page.tsx:229-234 | As for close, and `savingCard` and the note reset. Nothing else changes. |
| ChatPage.ChatState.FinishDelete | src/app/page.tsx:246-251 | Only the cards, the messages, the active id and the animation change, as `Fire` states for a delete. |
| ChatPage.SaveFlow | src/app/page.tsx:212-235 | A confirmed save followed by its timer puts the new card first, keeps the older cards behind it, keeps exactly the messages with another id, and closes the note editor. |
| Seqs.Filter | src/app/page.tsx:194 | The result is no longer than the input, and an element is in it exactly when it is in the input and passes the test. |
| Seqs.FilterAppend | src/app/page.tsx:247-248 | Filtering a concatenation concatenates the filtered parts, so kept elements keep their order. |
| Seqs.Find | src/app/page.tsx:213 | The result is absent exactly when no element passes. Otherwise it is the element at the first passing index. |

## Left out

- Rendering, CSS and animation classes are not modelled. The same goes for scrolling, `useChat`'s streaming and the pages `app/audit/page.tsx`, `app/home/page.tsx`, `app/signin/page.tsx` and `src/components/icons/SunIcon.tsx`: they are UI with no logic beyond fetch-and-display.
- The identity provider SDK, Prisma, `fetch` and JSON parsing are foreign calls. They appear only through their outcomes. Cookies set by the code exchange are not modelled.
- Logging (`console.log`/`console.error`) is not modelled. The model assumes it cannot throw.
- The URL interpolation of `city` into the upstream request, the API key and the literal `http://localhost:3000` are not modelled. Redirects carry the target path only, and upstream queries carry the city text only.
- `Date.now()` is not modelled: timestamps and message ids are caller-supplied values, and date formatting is left out.
- Weather numbers are opaque values (`Num(real)`), with no arithmetic. Serialising `undefined` fields away and JSON key order are not modelled.
- `localStorage` loading and saving, the 5-minute polling interval and the page-level `fetchWeather` effect are not modelled. They are browser I/O and timers.
- The formatted reply text of `handleWeatherQuery` (src/app/page.tsx:131-135) is not modelled. It is an opaque string passed in as `fetched`.
- Concurrency between requests is not modelled. Each handler is one sequential request. React's batching of state updates is also not modelled: each handler applies its updates at once, which is the same state here because every handler reads before it writes.
- The in-place `messages.push` (src/app/page.tsx:149) becomes a new sequence. If that array object is shared with a snapshot an earlier close or save timer captured, the push would show up in it; the model does not capture this aliasing.
- `JsValues.Get`: it treats properties inherited from `Object.prototype` as absent. None of the keys the routes read names such a property.
- CityQuery.MentionsWeather: it lowers only ASCII letters, where `toLowerCase` maps all of Unicode. This gives the same answer for `includes('weather in')`. Only two non-ASCII characters lower to text holding an ASCII letter. U+0130 yields `i` followed by a combining dot, never `in`. U+212A KELVIN SIGN yields `k`, which the phrase does not contain.
- The framework's extra matcher variants are not modelled: `/_next/data/...` paths, locale and base-path prefixes.
- Upstream statuses are taken to lie in 0-999, the range the Fetch standard allows a response status. `NextResponse.json` refuses a status outside 200-599, and the model sends that case to the catch branch (`JsValues.Sendable`).
- JavaScript strings are sequences of UTF-16 code units, while the model's strings are sequences of Unicode code points. This could change only where the matcher's `.` meets a character outside the Basic Multilingual Plane, and pathnames reach the matcher percent-encoded as ASCII, so it never arises.
- `isFromSavedCard` (src/app/page.tsx:255-257) is only a comparison with the dropdown marker. What it answers after each handler is stated in the contracts of `HandleCardSelect`, `HandleSubmit` and `Fire`.
