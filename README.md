# Chat widget message exchange, modelled in Dafny

An embeddable script, `chat-widget.js`, adds a floating chat button to a host page. Clicking it opens a chat window. The window greets the user, posts each message to a chat backend and shows the answer. This project models the message-exchange logic inside that script and proves properties of it:

- **Endpoint resolution** (`Endpoint`). The backend endpoint comes from the script tag's `data-api-url` attribute, or from a hard-coded default. Unless the endpoint already starts with `http`, each request URL is the page origin followed by the endpoint, joined by plain string concatenation (no URL resolution).
- **Input validation and submission** (`ChatWidget.Widget.Submit`). Blank input is ignored. This uses JavaScript's `trim`, modelled in `Text`. Otherwise the untrimmed text is shown as a user bubble and sent as the `message` body. The input field is cleared and a "Thinking..." marker is appended, with id `loading-<Date.now()>`.
- **Settlement** (`ChatWidget.Widget.Settle`). When the request completes, the handler that runs removes the first element carrying the marker's id, if the document still holds one. Then exactly one bubble is appended: the backend's `response` text on an ok response whose JSON body parses and whose `response` field renders, the fixed apology otherwise. When the data handler throws after its own removal (an ok response whose JSON is `null`, say), the catch handler looks the id up and removes a second time.

The chat window is a `class Widget`. Its fields are the bubbles of `chatMessages` (`transcript`), the input field's value (`input`), whether the window is still attached to the document (`open`) and the log of requests sent (`requests`). A ghost multiset `inFlight` holds the marker ids of requests whose handlers have not run yet. A ghost multiset `lost` holds the ids of in-flight requests whose marker was taken by that second removal, which can only happen when two submissions in the same millisecond share an id. The object invariant `Valid()` is the value-level predicate `ChatWidget.Consistent`. It says:

- the greeting stays first;
- every settled request added exactly one reply;
- while the window is attached, the markers still shown together with `lost` are exactly the ids of the in-flight requests.

So, while the window is open and no marker has been lost, every settling request finds its marker, and a settlement without a throwing data handler swaps that marker for the reply. A double removal takes the marker of a same-id request (`ChatWidget.TwinMarkerExchange`). For each marker taken this way, one later same-id lookup misses, and every settlement still appends exactly one reply (`ChatWidget.SettlePreserves`).

Time (`Date.now()`), the page origin and the `data-api-url` attribute are parameters. The network round trip is the `Outcome` passed to `Settle`.

Notes on what the code does:

- It displays and sends the raw, untrimmed text. Trimming only decides whether the input is blank.
- It removes the marker before appending the reply.
- Its error text is "Sorry, there was an error processing your request.".

## Model

| member | source | states |
|---|---|---|
| `Endpoint.ApiEndpoint` | chat-widget.js:4-18 | A non-empty `data-api-url` is returned verbatim. A missing or empty one gives the fixed default URL. The result is never empty. |
| `Endpoint.RequestUrl` | chat-widget.js:124-126 | The request URL is the endpoint itself when it starts with "http", and origin + endpoint otherwise. |
| `Endpoint.RequestUrlStartsWithHttp` | chat-widget.js:124-126 | On a page whose origin starts with "http", the request URL always starts with "http". Resolving it a second time changes nothing. |
| `Endpoint.DefaultRequestUrl` | chat-widget.js:10-17 | Without a usable `data-api-url`, every request goes to the default backend, whatever the page origin. |
| `Text.TrimStartSpec` | chat-widget.js:114 | Leading trim removes exactly the longest whitespace prefix. The dropped part is blank, the kept part is a suffix of the input, and it starts with a non-whitespace character. |
| `Text.TrimEndSpec` | chat-widget.js:114 | Trailing trim removes exactly the longest whitespace suffix. |
| `Text.TrimEmptyIffBlank` | chat-widget.js:113-114 | `trim()` gives the empty (falsy) string if and only if every character of the input is ECMAScript whitespace. |
| `Text.Decimal` | chat-widget.js:129 | The rendering of a timestamp is a non-empty digit string with no leading zero. |
| `Text.ParseDecimalOfDecimal` | chat-widget.js:129 | Reading the rendered digits back gives the timestamp (round trip). |
| `Text.DecimalInjective` | chat-widget.js:129 | Two timestamps render the same way if and only if they are equal. |
| `Transcript.LoadingId` | chat-widget.js:129 | A marker id is "loading-" followed by a non-empty string of decimal digits. |
| `Transcript.LoadingIdInjective` | chat-widget.js:129 | Two `loading-<now>` ids are equal if and only if the two timestamps are equal, so ids collide only within one millisecond. |
| `Transcript.Reply` | chat-widget.js:140-166 | The added bubble is `Bot(text)` if and only if the response status is 200-299 and its `response` field renders, and the text is the rendered one. Any other outcome gives the fixed error bubble. |
| `Transcript.NonOkStatusIsError` | chat-widget.js:141-145 | A status outside 200-299 (`response.ok` false) always gives the error bubble, whatever the body, and the data handler never runs, so there is only one lookup. |
| `Transcript.ReplyShows` | chat-widget.js:153-166 | The added bubble shows the backend's text verbatim, or exactly the apology text. |
| `Transcript.Find` | chat-widget.js:148-149 | Gives `None` if and only if the marker is absent. Otherwise it gives the index of its first occurrence. |
| `Transcript.RemoveFirst` | chat-widget.js:148-151 | Removal leaves the transcript unchanged when the marker is absent, and shortens it by one otherwise. |
| `Transcript.RemoveFirstAt` | chat-widget.js:148-151 | Removal takes out exactly the first occurrence: the entries before it and after it stay, in order. |
| `Transcript.RemoveFirstSpec` | chat-widget.js:148-151 | Removal deletes exactly one occurrence when there is one: the multiset of entries loses one copy of the marker and nothing else. |
| `Transcript.RemoveFirstKeepsHead` | chat-widget.js:148-151 | Removing a marker never disturbs the first entry, so the greeting stays first. |
| `Transcript.RemovePendingCensus` | chat-widget.js:148-151 | Removing the first marker for an id drops exactly one copy of that id from the pending ids, and no reply. |
| `ChatWidget.Submitted` | chat-widget.js:116-130 | A non-blank submission keeps the old bubbles, then adds the user's bubble and then the marker with the new id, and no reply. |
| `ChatWidget.Settled` | chat-widget.js:147-166 | A settlement ends with its reply bubble, after the one or two lookups of `ChatWidget.Cleared` (148-151, and 161-164 when the data handler throws). With the window detached or the marker gone it only appends. With the marker found and no throwing data handler the length is unchanged. It removes at most two markers. |
| `ChatWidget.LostAfter` | chat-widget.js:147-166 | A settlement only moves ids out of `lost`, except that a data handler that throws after removing can add its own id once. |
| `ChatWidget.SubmitPreserves` | chat-widget.js:112-130 | A valid submission keeps the window invariant. It adds one in-flight request together with its marker. |
| `ChatWidget.LookupCensus` | chat-widget.js:147-164 | One lookup-and-removal drops one copy of the id from the pending ids when one is shown, keeps the replies and the greeting, and finds a marker exactly when the id is pending. |
| `ChatWidget.ClearedCensus` | chat-widget.js:147-166 | The one or two lookups of a settlement keep the attached census balanced, once the lost ids are updated. |
| `ChatWidget.MarkerFound` | chat-widget.js:148-151 | While no marker is lost, every in-flight request's marker is in the attached window. |
| `ChatWidget.SettlePreserves` | chat-widget.js:140-166 | Settling an in-flight request keeps the window invariant, including after a double removal, and adds exactly one reply. |
| `ChatWidget.SettleKeepsLength` | chat-widget.js:147-166 | While no marker is lost and the data handler does not throw, a settlement in the attached window swaps its marker for the reply. |
| `ChatWidget.NoOrphanMarkers` | chat-widget.js:128-166 | Once every request has settled, no "Thinking..." marker is left in the attached window. |
| `ChatWidget.BlankInputScenario` | chat-widget.js:112-114 | A window opened without `data-api-url` where the user types only spaces still shows only the greeting, has sent nothing and keeps the typed text. |
| `ChatWidget.HelloExchange` | chat-widget.js:116-154 | "hello" answered with status 200 and "hi there" leaves the greeting, the user bubble and the bot bubble. |
| `ChatWidget.ServerErrorExchange` | chat-widget.js:140-166 | A 503 response leaves the greeting, the user bubble and the error bubble, whatever the body. |
| `ChatWidget.TwinMarkerExchange` | chat-widget.js:129-166 | Two submissions in the same millisecond, the first answered with status 200 and a `null` body, leave the greeting, both user bubbles and one apology: both markers are gone. |
| `ChatWidget.Widget.constructor` | chat-widget.js:70-77 | Opening the chat gives a transcript holding only the greeting and an empty input. The endpoint is the one resolved from `data-api-url`, and no request has been sent. |
| `ChatWidget.Widget.Edit` | chat-widget.js:85-92 | Typing sets the input field's value and changes nothing else. |
| `ChatWidget.Widget.Close` | chat-widget.js:65-67 | Clicking the header detaches the window. The invariant still holds, and markers can no longer be found by id. |
| `ChatWidget.Widget.Submit` | chat-widget.js:112-130 | Blank input leaves the transcript, the input field and the requests sent unchanged. Otherwise it appends exactly `User(raw)` and `Pending("loading-" + now)` and clears the input. It records one request: the resolved URL, the origin header and the raw text as `message`. |
| `ChatWidget.Widget.RemoveMarker` | chat-widget.js:147-164 | `getElementById` followed by `remove()` removes the first marker with the id from an attached window, and changes nothing in a detached one. |
| `ChatWidget.Widget.Settle` | chat-widget.js:140-166 | The transcript becomes `Settled`: the first marker for the id removed when attached, a second one when the data handler throws after removing, then exactly one reply. The request is no longer in flight. In the attached window, while no marker is lost and the data handler does not throw, the length is unchanged. |

## Left out

- Styling and DOM node construction (icon, window, header, input, button) are presentation only. Entries are abstract values; `Transcript.Display` gives only their texts.
- The script-tag lookup is not modelled. The `data-api-url` attribute is an input, with `None` for `null`.
- `fetch`, request headers and JSON parsing are network I/O. They become the `Outcome` given to `Settle`, and `requests` records what was sent.
- Promise scheduling is not modelled. Each completion is an explicit later `Settle` call, in any order.
- `Settle` requires the id to be in flight, because the code runs a request's handlers exactly once, for a request that was sent.
- `Submit`, `Edit` and `Close` require the window to be open, because a detached input field, button and header receive no events.
- `Edit` accepts any text, although a text input's value never holds a line feed or carriage return; this only admits more inputs than the browser produces.
- `Date.now()` is a `nat` parameter. Negative time values (a clock set before 1970, which gives ids such as `loading--123`) and integers of 10^21 or more, which JavaScript prints in exponent form, are not modelled.
- `console.error` and scroll positions have no effect on the exchange.
- With `innerHTML +=` the inserted text is not escaped. Markup that a user or the backend could inject, including a forged marker id, is not modelled.
- Which JSON bodies make `${data.response}` throw is not modelled. The `Body` of an `Outcome` says whether the body did not parse, parsed but could not be rendered, or rendered to a text.
- Each call to `openChat` creates a new window. The model covers one window; elements of other windows that `getElementById` could also search are not modelled.
- JavaScript strings are UTF-16. The model uses Unicode scalar values, so lone surrogates are not represented.
