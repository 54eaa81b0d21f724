# Vendor-traffic inspector: relay store and interceptor model

This project models the core of a browser extension that watches a
personalization vendor's network traffic from inside a web page. It has
three parts:

- **The page-context interceptor** (`inject.js`). It wraps the request
  object's `open` and `send`. It recognises three vendor endpoints by URL
  substring: recommendation, analytics "hit" and UCD (user context data).
  When a matched request completes, it posts a request/response record. For
  UCD URLs it reads the `ins-uss` session-expiry key two seconds later and
  posts a patch carrying the original timestamp. It also removes that key on
  `RESET_UCD_SEGMENTS`.
- **The relay** (`content.js`). It classifies each `XHR_INTERCEPTED`
  message into a bucket and decodes analytics bodies (transport decoding,
  then JSON, then the event name and page type). It appends records to the
  extension's local store and patches UCD records with the session expiry.
  It also stores add-to-cart events and the two diagnostic scalars, empties
  the buckets when the top frame loads, and runs two bounded pollers for
  the diagnostics.
- **The command relay** from the popup to the page (`content.js`).

Modules:

- `Js` (js.dfy): the JavaScript value semantics the scripts rely on:
  truthiness, property reads that throw on null or undefined, `startsWith`
  and `includes`.
- `Messages` (messages.dfy): the page messages, the popup commands, and the
  relay's command forwarding.
- `Relay` (relay.dfy): bucket classification and hit-body decoding as
  functions. The store is the class `Store`, whose handler methods are atomic storage
  callbacks. `storageOk == false` stands for a store that throws or reports
  `chrome.runtime.lastError`, and leaves the store unchanged.
- `Polling` (polling.dfy): the poller as a state machine (`PollState`) with
  lemmas about complete runs, and the `Poller` class that follows it. The
  class is used once for generation time and once for the error bag, since
  content.js repeats the same code for both.
- `Interceptor` (interceptor.dfy): URL matching, the `open`/`send` wrappers
  as a class, record completion, the session-expiry read and patch message,
  and the reset handler over the page's session state.
- `Pipeline` (pipeline.dfy): how the interceptor's messages land in the
  relay's store.

Functions the code calls but does not define are parameters of the model:
`atob`, `JSON.parse`, `toLocaleString` (in `Relay.Natives`) and
`Date.now()` (the `now` argument of `Send`).

Notes on the code's behaviour:

- There is no "other" category. Every `type` that is not "recommendation"
  or "hit", and is truthy, goes to the UCD bucket.
- The session-expiry read is scheduled when the URL contains the UCD
  pattern, not when the category is UCD (`Pipeline.MixedUrlSchedulesPatchOutsideItsBucket`).
- Nothing keeps a second patch for the same timestamp out. It overwrites
  the value of the first (`Relay.PatchTwiceKeepsLast`).
- This version of inject.js answers only `RESET_UCD_SEGMENTS`.
- A request object that is opened and sent again keeps the load listeners
  of its earlier sends (`Interceptor.Xhr.Open` leaves `loadListeners` as
  they were and `Interceptor.Xhr.Send` appends). On its next load each old
  listener fires too, and posts its old url, method, body and timestamp
  with the new response. An old UCD listener also schedules a patch keyed
  on its old timestamp.

## Model

| member | source | states |
|---|---|---|
| `Relay.StorageKey` | content.js:101-102 | The bucket is recommendationRequests exactly when `type` is falsy or "recommendation". It is hitRequests exactly when `type` is "hit". Every other value, unknown ones included, goes to ucdRequests. |
| `Relay.RecordOf` | content.js:135-145 | The stored record keeps url, method, status, response and timestamp as received, takes body, eventType and pageType from `NormalizeBody`, has the locale time string of the timestamp and no session expiry. `statusText` and `type` are not stored. |
| `Relay.DecodeTransport` | content.js:110-119 | Non-strings and strings starting with `{` are kept as they are, and so is a string that `atob` rejects. A string that does not start with `{` and that `atob` accepts becomes its decoding. A changed body is always such a decoding. |
| `Relay.EventFields` | content.js:120-127 | A failed parse, or a parsed value without a truthy `event` (null included), leaves eventType and pageType null. Otherwise eventType is that `event`. pageType is non-null exactly when the event is "pageView" and `page_type` is truthy, and then it is that `page_type`. |
| `Relay.NormalizeBody` | content.js:104-128 | For a non-hit request, or a hit with a falsy body, the stored body is the incoming body and both fields stay null. For a hit with a truthy body, the stored body is the decoded body even when parsing it fails, and the fields come from parsing that decoded body. |
| `Relay.FindIndexByTimestamp` | content.js:160 | The result is -1 exactly when no record has the timestamp. Otherwise it is the first index whose record has it. |
| `Relay.PatchSessionExpire` | content.js:159-165 | The length is unchanged. Without a match the bucket is unchanged. With a match, only the first matching record changes, and only in `sessionExpire`. |
| `Relay.FindIndexFollowsTimestamps` | content.js:160 | The first match depends only on the sequence of timestamps, so patching a record does not move it. |
| `Relay.PatchTwiceKeepsLast` | content.js:156-165 | Two patches for one timestamp hit the same record, and the second value wins. |
| `Relay.PatchFindsAppendedRecord` | content.js:131-165 | If a record is appended and no earlier record has its timestamp, a patch with that timestamp changes exactly that record. |
| `Relay.Store.OnXhrIntercepted` | content.js:99-150 | The target bucket grows by one: earlier records are unchanged and in order, and the new record is last. A missing bucket counts as empty. Other buckets and the scalar keys are untouched. A storage failure changes nothing. |
| `Relay.Store.OnUcdSessionExpire` | content.js:152-168 | With a match, only the UCD bucket is rewritten, as `PatchSessionExpire` gives it. Without a match, or on a storage failure, nothing is written. |
| `Relay.Store.OnAddToCartIntercepted` | content.js:170-188 | The cart bucket grows by one (a missing bucket counts as empty), with the new record last. Nothing else changes. |
| `Relay.Store.OnGenerateTimeResponse` | content.js:190-195 | Overwrites `insiderGenerateTime` and no other key. |
| `Relay.Store.OnErrorBagResponse` | content.js:197-202 | Overwrites `insiderErrorCount` and no other key. |
| `Relay.Store.ResetOnLoad` | content.js:205-212 | In the top frame, exactly the four request buckets become empty and the scalars stay. In a nested frame, nothing changes. |
| `Relay.Store.OnWindowMessage` | content.js:96-203 | Messages from another source change nothing. Each key is written only by its own message type: buckets by XHR_INTERCEPTED or UCD_SESSION_EXPIRE, the cart by ADD_TO_CART_INTERCEPTED, each scalar by its own response. |
| `Messages.RelayCommand` | content.js:214-241 | Each known command is forwarded once with the same name and payload, and acknowledged. An unknown one is neither. The forwarded message maps back to the command. |
| `Polling.StartStep` | content.js:58-64 | A start while an interval is held changes nothing and posts nothing. Otherwise it resets the counter to 0, posts one request and holds the interval. |
| `Polling.TickStep` | content.js:64-74 | A tick raises the counter by one. It posts exactly when the counter stays below 20, and the interval is kept exactly then. |
| `Polling.TicksFrom` | content.js:64-74 | From a held interval at count c < 20, n ticks reach min(c+n, 20) and hold the interval only below 20. They post min(n, 19-c) requests. |
| `Polling.FreshRunPostsMaxChecks` | content.js:58-75 | A fresh start plus n ticks posts min(n+1, 20) requests, so 20 in all. After 20 ticks the interval is cleared, and the next start begins again from 0. |
| `Polling.RestartWhileRunningIsIgnored` | content.js:59 | A start at any point of a run that is still going is a no-op. |
| `Polling.Poller.constructor` | content.js:6-10 | A poller starts with counter 0 and no interval. |
| `Polling.Poller.Start` | content.js:58-64 | The object's counter, interval and posting follow `StartStep`, and what it posts is its own request message. |
| `Polling.Poller.Tick` | content.js:64-74 | The object's counter, interval and posting follow `TickStep`. |
| `Polling.StartInsiderChecks` | content.js:53-56 | Starts the GET_GENERATE_TIME and GET_ERROR_BAG pollers, each as `StartStep` gives it. Returns the requests posted at once: GET_GENERATE_TIME then GET_ERROR_BAG, leaving out a poller that was already running. |
| `Interceptor.MatchUrl` | inject.js:11-15 | Each flag holds exactly when the URL is a string containing that pattern. A missing or empty URL matches nothing. |
| `Interceptor.MatchUrlAsWritten` | inject.js:11-13 | The checks as written throw exactly when the URL is truthy and not a string. |
| `Interceptor.UrlObjectBlocksSendAsWritten` | inject.js:11-13 | With a URL object, the checks as written throw. |
| `Interceptor.MatchUrlAgreesWithAsWritten` | inject.js:11-13 | For strings and falsy URLs, the corrected checks give what the code computes. |
| `Interceptor.CategoryOf` | inject.js:21 | Precedence when several patterns match: recommendation, then hit, then UCD. |
| `Interceptor.Complete` | inject.js:25-30 | The completed record, projected back, is the request record unchanged. Status, statusText and response are the given ones. |
| `Interceptor.OnLoad` | inject.js:24-41 | Posts nothing and schedules nothing when reading `responseText` throws or the record cannot be cloned for `postMessage`. Otherwise it posts XHR_INTERCEPTED with the completed record, and schedules the session-expiry read exactly when the URL matched the UCD pattern. |
| `Interceptor.SessionExpireMessage` | inject.js:41-56 | A patch is sent exactly when the read succeeds. It carries the original request's timestamp and the value read. |
| `Interceptor.PageSession.ReadInsUss` | inject.js:43 | Returns the vendor accessor's value when it is truthy, otherwise the session-storage value (null when absent). It fails when the step it needs throws. |
| `Interceptor.PageSession.OnWindowMessage` | inject.js:65-81 | RESET_UCD_SEGMENTS from the same window removes only `ins-uss`: through the vendor accessor when it has `remove`, otherwise from sessionStorage. Anything else is ignored. |
| `Interceptor.Xhr.Open` | inject.js:4-8 | Stores the call's first two arguments as method and URL (`undefined` when left out). Calls the original `open` with exactly the call's own arguments, so a call with fewer than two still fails there. Listeners are untouched. |
| `Interceptor.OpenArgsAsWritten` | inject.js:4-8 | The list the wrapper as written hands on: the call's arguments, padded with `undefined` up to the two slots for method and URL. |
| `Interceptor.OneArgumentOpenAsWritten` | inject.js:4-8 | `open('GET')` reaches the original `open` as `open('GET', undefined)`, not with its one argument. |
| `Interceptor.OpenArgsAsWrittenKeepsTwoOrMore` | inject.js:4-8 | With two or more arguments, the wrapper as written hands on exactly the call's arguments. |
| `Interceptor.Xhr.Send` | inject.js:10-62 | Always calls the original `send` with its own arguments. A matched URL adds one load listener carrying url, method, first argument, timestamp, category name and the UCD flag. An unmatched URL adds none. |
| `Pipeline.CapturedRequestReachesItsBucket` | content.js:99-145 | A completed request goes to the bucket of its URL's category. It keeps url, method, timestamp, status and response, and a non-hit body is kept as sent. |
| `Pipeline.UcdPatchReachesItsRecord` | inject.js:40-56 | A UCD request's record goes to the UCD bucket. The delayed callback reads the page's session expiry (`PageSession.ReadInsUss`): a read that throws posts nothing, and a value read is posted and patches exactly that record when no earlier record shares its timestamp. |
| `Pipeline.MixedUrlSchedulesPatchOutsideItsBucket` | inject.js:11-41 | A URL that matches both the recommendation and UCD patterns is stored as a recommendation, but still schedules the session-expiry read. |

## Left out

- popup.js: DOM rendering and its timer. It reads an `apiRequests` key that neither script writes.
- Script injection and `ins.js` detection (content.js:1-4, 13-51): DOM, PerformanceObserver and MutationObserver plumbing. `StartInsiderChecks` is modelled; what triggers it is not.
- The asynchronous storage API. Each callback is one atomic transition. The race between two frames doing read-modify-write on one bucket (concurrency) is not modelled.
- The value conversions of storage serialization (for example, undefined properties being dropped).
- The workings of `atob`, `JSON.parse` (including how it turns a non-string argument into text), `toLocaleString` and `Date.now`. They are parameters.
- Wall-clock delays (500 ms and 2000 ms). Ticks are discrete steps. The page's session state at the time of the delayed read is an input.
- `postMessage` delivery (messages are values; a dropped message is not modelled), `console.log`, and the prototype-patching mechanism.
- The return values of the `open` and `send` wrappers.
- Array values passed as URLs: `Js.JsValue` has no array case, so the element-wise `includes` of an array is not modelled.
- Exceptions thrown inside the vendor accessor's own `get` or `remove`.
- Malformed same-window messages from other page scripts (`event.data` null, or a missing `data` field). These make the listener throw; page messages are a closed union here.
- BigInt values. Truthiness covers every other primitive.
- The producers of ADD_TO_CART_INTERCEPTED, GENERATE_TIME_RESPONSE and ERROR_BAG_RESPONSE, and answers to GET_GENERATE_TIME, GET_ERROR_BAG, SHOW_ERROR_BAG and TOGGLE_ADD_TO_CART_TRACKING. No code for them is in inject.js, so only the relay's side of these messages is modelled.
- Relay.Store.OnWindowMessage: its contract states only the source check and which message type may change which key. The exact effect of each message is the contract of the handler it calls.

## Findings

| source | as written | input that shows it | evidently intended | confidence | as-written member | corrected member |
|---|---|---|---|---|---|---|
| inject.js:4-8 | `[method, url, ...args]` always fills the method and URL slots. A call with one argument reaches the original `open` with an explicit `undefined` URL. | `xhr.open('GET'); xhr.send()`: without the wrapper `open` throws a TypeError for want of a URL. With it, the request opens the relative URL "undefined" and `send` dispatches it. | The wrapper only observes: the original `open` gets the call's own arguments, so a call the browser rejects is still rejected. | medium; not executed | `Interceptor.OpenArgsAsWritten`, `Interceptor.OneArgumentOpenAsWritten` | `Interceptor.Xhr.Open` |
| inject.js:11-13 | `this._url && this._url.includes(...)` calls `includes` on whatever `open` received. A truthy non-string URL has no such method, so the `send` wrapper throws a TypeError before it reaches the original `send` (inject.js:61). | `xhr.open('GET', new URL('https://recommendationv2.api.useinsider.com/v2')); xhr.send()` | Interception never changes the page's requests: `send` always delegates. Only string URLs are tested against the patterns. | high; not executed | `Interceptor.MatchUrlAsWritten`, `Interceptor.UrlObjectBlocksSendAsWritten` | `Interceptor.MatchUrl`, `Interceptor.Xhr.Send` |
