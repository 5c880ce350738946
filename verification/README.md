# AI image generator: relay and submit logic in Dafny

A functional model of the decision logic of a small text-to-image web
application. A relay server takes a prompt from the browser. It forwards the
prompt to a hosted inference provider and turns the provider's answer into a
single JSON reply. The browser component sends the prompt, shows the returned
image and keeps a short history of recent results.

The model covers both halves and their composition:

- `json.dfy` (module `Json`): JSON values as `JSON.parse` yields them. It also
  holds JavaScript falsiness of a possibly `undefined` value and own-property
  reads, where the last duplicate key wins.
- `text.dfy` (module `Text`): `startsWith` and `trim`. The characters `trim`
  removes are the ECMAScript WhiteSpace and LineTerminator productions.
- `relay.dfy` (module `Relay`): the `/transform`, `/test-token` and
  `/mock-transform` handlers of `backend/server.js`. The provider's answer is an
  input of type `Upstream`. The handler's answer is a `Reply`: a status and a
  `Body`. The body has an output variant (`Image`, `MockImage`) and an error
  variant (`Failure`), so a reply carries an output or an error, never both and
  never neither.
- `client.dfy` (module `Client`): `handleSubmit` and the history click of
  `frontend/src/App.js`. Each is a transition of the state
  `(resultImage, history, loading)`.
- `end_to_end.dfy` (module `EndToEnd`): the relay's reply is serialised as
  JSON and fed to the component's submit transition.

Library calls become given functions in a `Relay.Library` value. These are
base64 encoding (section 4 of RFC 4648), UTF-8 decoding of a response body,
UTF-8 encoding of a string and `JSON.parse`. The string conversion of a value
is a `Json.Conversion`: `Number.prototype.toString` and the conversion of an
array or object, which may throw. `Math.random()` becomes a real in [0, 1), and `Date.now()` becomes
an integer parameter.

## Behaviour of the code worth knowing

- `/transform` checks only the falsiness of `prompt` (backend/server.js:38). A
  whitespace-only prompt, or a truthy non-string such as a number, reaches the
  provider (`Relay.BlankPromptReachesProvider`).
- With no credential configured, `/transform` makes no upstream call at all
  (backend/server.js:36-39). An upstream call is made only when the prompt is
  truthy and a credential is set (`Relay.Request`).
- `/test-token` answers 500 when the identity endpoint answers 2xx with a body
  that is not JSON or is `null` (backend/server.js:23-25). Reading `.json()` or
  `.name` then throws into the catch block.
- `/mock-transform` converts the prompt to a string inside a template literal
  (backend/server.js:121). For an object prompt whose conversion throws, the
  handler rejects and sends no reply of its own (`Relay.MockTransform`).
- The component builds its alert as `"Error: " + error` (frontend/src/App.js:133).
  For an `error` object whose conversion throws, the catch block shows the
  network alert instead (`Client.AlertThrows`). The relay itself only ever
  sends string errors (`EndToEnd.RelayErrorLeavesScreen`).
- The component has no `retry` handling (frontend/src/App.js:132-135). A 503
  reply is shown as an alert like any other error.

## Model

| member | source | states |
|---|---|---|
| Json.Lookup | backend/server.js:24-25 | a key reads as absent exactly when no member has it, and otherwise as the value of one of its members |
| Json.LookupLastWins | backend/server.js:24-25 | of duplicate keys the last member wins: appending a member with the key decides the read, appending one with another key changes nothing |
| Json.Falsy | backend/server.js:38 | `undefined` is falsy, a string is falsy exactly when empty, and every array or object, empty or not, is truthy |
| Json.ToText | backend/server.js:121 | JavaScript's string conversion of a parsed value: a string converts to itself, and only an array or object can make the conversion throw |
| Json.Property | frontend/src/App.js:132 | an own-property read yields `undefined` for every non-object, and for an object exactly when the key is absent |
| Text.StartsWith | backend/server.js:73 | `startsWith` holds exactly when the prefix is no longer than the string and agrees with it character by character |
| Text.IsSpace | frontend/src/App.js:113 | the characters `trim` removes are the ECMAScript white-space and line-terminator characters; no visible ASCII character is among them |
| Text.Trim | frontend/src/App.js:113 | `trim` yields the slice of the input that starts after the leading white space and is followed only by white space; it is empty exactly when every character is white space, and otherwise starts and ends with a non-space |
| Text.TrimIdempotent | frontend/src/App.js:113 | trimming twice is the same as trimming once |
| Relay.Body.ToJson | backend/server.js:59-96 | the JSON body of every reply is an object whose first member is `error` for an error reply and `output` otherwise |
| Relay.ToJsonReadsBack | backend/server.js:80-84 | reading the serialised reply back yields its `output`, or for an error body its `error` and no `output` |
| Relay.IsOk | backend/server.js:54 | `response.ok` is a status in 200..299 |
| Relay.Configured | backend/server.js:39 | a credential counts as configured when it is set and non-empty |
| Relay.IsImageType | backend/server.js:73 | the content type is present and starts with `image/` |
| Relay.DataUri | backend/server.js:76 | the data URI is `data:` + content type + `;base64,` + payload: 13 characters longer than its parts, ending with the payload, and starting with `data:image/` for an `image/` type |
| Relay.Request | backend/server.js:36-52 | an upstream call is made exactly when the prompt is truthy and a non-empty credential is configured; it carries the prompt unchanged, the credential and caching turned off |
| Relay.BlankPromptReachesProvider | backend/server.js:36-39 | every non-empty string prompt, white space alone included, is forwarded to the provider once a credential is configured |
| Relay.Normalise | backend/server.js:41-97 | the status table: exception to 500 "Internal server error" with the message; 503 with retry; 401 "Invalid token"; 429 "Rate limit exceeded"; other non-2xx forwarded with "API error" and the body text; 2xx `image/*` to the data URI with the fixed model id and the prompt echoed; other 2xx to 500 "Unexpected response" with the parsed JSON, or "Unexpected response format" with the raw text |
| Relay.Transform | backend/server.js:35-98 | a falsy prompt gives 400 "Prompt is required" whatever the credential; otherwise a missing credential gives 500 "HF_TOKEN not configured"; otherwise the upstream answer is normalised; every reply holds exactly one of an output and an error, and every error message is non-empty |
| Relay.RejectedWithoutUpstream | backend/server.js:38-39 | a request turned away by the prompt or credential check is an error whose reply does not depend on the provider in any way |
| Relay.SuccessIffOkStatus | backend/server.js:54-92 | the reply status is 2xx exactly when the reply carries an image |
| Relay.RetryIffLoading | backend/server.js:58-68 | `retry: true` is present exactly on 503 replies, and a 503 reply only arises from an upstream 503 |
| Relay.ImageIsDataUri | backend/server.js:71-84 | every image output is `data:` + the provider's content type + `;base64,` + the base64 of the body; it starts with `data:image/`, names the fixed model and echoes the prompt |
| Relay.TestToken | backend/server.js:15-32 | `valid: true` exactly on status 200; a non-2xx answer gives 401 "Invalid token"; an exception, a non-JSON body or a `null` body gives 500 with the thrown message |
| Relay.TokenValidOnlyOnProviderOk | backend/server.js:23-31 | `/test-token` answers 200, 401 or 500 only, and reports a valid token only when the identity endpoint answered 2xx with a non-null JSON body |
| Relay.ColorIndex | backend/server.js:108-109 | `floor(random * 6)` for a random draw in [0, 1) is a valid palette index |
| Relay.Palette | backend/server.js:108 | the six colours of the mock endpoint, in source order |
| Relay.Canvas | backend/server.js:111-114 | the SVG document of the mock endpoint, with the colour placed right after the fixed head as the `fill` of the square |
| Relay.MockTransform | backend/server.js:101-124 | a falsy prompt gives 400 "Prompt is required"; a prompt whose string conversion throws rejects the handler; otherwise status 200, model "mock-model", the message `Mock image generated for: "<prompt>"`, and as output `data:image/svg+xml;base64,` followed by the base64 of the SVG square in the palette colour at index `floor(random * 6)` |
| Relay.MockRandomOnlyPicksColour | backend/server.js:106-121 | the random draw affects only the colour: whether a reply is sent and its message never depend on it, and draws that pick the same colour give the same outcome |
| Client.EnhancedPrompt | frontend/src/App.js:120 | the prompt sent is the prompt as typed (untrimmed) followed by exactly `, <style> style` |
| Client.EnhancedPromptRoundTrip | frontend/src/App.js:120 | the typed prompt can be read back from the enhanced prompt, which is never empty |
| Client.NormaliseImage | frontend/src/App.js:137-139 | the result always starts with `data:image/`; a `data:image/` output is kept as it is, anything else gets the `data:image/png;base64,` prefix |
| Client.NormaliseIdempotent | frontend/src/App.js:137-139 | normalising twice is normalising once, and the original output is always the tail of the result |
| Client.PushHistory | frontend/src/App.js:142-145 | the new history has length min(previous + 1, 5), starts with the new entry and continues with a prefix of the previous history |
| Client.PushAllKeepsMostRecent | frontend/src/App.js:142-145 | after any run of successful submits the history is the newest entries, newest first, then the old history, cut to 5 |
| Client.SixSubmitsEvictOldest | frontend/src/App.js:142-145 | after six successes from an empty history, the first is gone and the other five remain in reverse order |
| Client.ErrorOf | frontend/src/App.js:132-133 | the alert's `data?.error` is absent exactly for a `null` body or a falsy `error`, and otherwise is the body's own `error` value |
| Client.AlertThrows | frontend/src/App.js:133 | building the alert text throws exactly when the shown `error` is truthy and its string conversion throws |
| Client.ReadOutput | frontend/src/App.js:132-139 | `data.output` yields an image exactly for a non-null body whose `output` is a non-empty string; it is missing exactly when `output` is falsy; any other read throws |
| Client.Submit | frontend/src/App.js:111-152 | a blank-after-trim prompt changes nothing and sends nothing; otherwise the enhanced prompt is sent and loading ends false; every alert leaves image and history unchanged; the image is shown and the history pushed exactly when the reply is ok with a non-empty string `output`; a failed reply shows the relay's `error`, or the network alert when converting that `error` to text throws |
| Client.BlankSubmitMakesNoRequest | frontend/src/App.js:113-116 | for a blank prompt no request is made, and what the relay would have answered has no effect |
| Client.Select | frontend/src/App.js:462 | clicking a history item shows its image and leaves the history and the loading flag unchanged |
| Client.InitialGood | frontend/src/App.js:80-83 | the initial state (no image, empty history) satisfies the component invariant |
| Client.SubmitKeepsGood | frontend/src/App.js:111-152 | every submit keeps the history within 5 entries and every shown or listed image a `data:image/` URI |
| Client.SelectKeepsGood | frontend/src/App.js:462 | a history click keeps the same invariant |
| EndToEnd.Roundtrip | frontend/src/App.js:120-130 | one submit sent through `/transform`: a blank prompt sends nothing and changes nothing, any other sends the enhanced prompt |
| EndToEnd.Wire | frontend/src/App.js:124-130 | the component sees `ok` exactly when the relay's status is 2xx, and always a JSON object body |
| EndToEnd.EnhancedPromptPassesRelayCheck | frontend/src/App.js:120-127 | a prompt built by the component is never turned away by the relay as missing |
| EndToEnd.ImageReachesScreen | frontend/src/App.js:132-145 | when the provider returns an image, the component shows exactly the relay's data URI and records it with the typed prompt and the style |
| EndToEnd.RelayErrorLeavesScreen | frontend/src/App.js:132-135 | every relay error leaves image and history as they were, clears loading and alerts the relay's error message |

## Left out

- HTTP and process plumbing: express, cors, dotenv, `fetch`, console logging
  and `app.listen` (backend/server.js:1-12, 126-130). The provider's answer is
  an input of the handlers.
- Base64 encoding, UTF-8 encoding and decoding, `JSON.parse`, number
  formatting and the string conversion of an array or object. These are
  library calls and are passed in as functions of `Relay.Library` and
  `Json.Conversion`.
- The 2-second delay of `/mock-transform`, `Math.random()` and `Date.now()`.
  These are timing or randomness, lifted into parameters.
- JSX markup, styling, the animation interval, the rotating example prompts,
  clipboard copy and download (frontend/src/App.js:87-109, 154-478). These are
  presentational or browser APIs. The commented-out earlier component
  (frontend/src/App.js:1-71) is dead code. frontend/src/index.js only mounts
  the component.
- The intermediate `loading = true` while a call is outstanding, and the
  single-flight behaviour of the disabled button. Only the settled value of
  `loading` is modelled.
- Client.Submit: the alert is modelled by its kind and the `error` value it
  shows, not as the concatenated alert string.
- Json.Property: inherited properties are not modelled. None of the keys read
  here (`output`, `error`, `name`) is inherited by a JSON value.
- What the HTTP layer sends when the `/mock-transform` handler rejects is not
  modelled. `Relay.MockTransform` ends in `Rejected` there, with no reply of
  its own.
- Non-`Error` exceptions whose `message` is `undefined` are not modelled. An
  exception always carries a message string.
- Status codes the HTTP layer itself would refuse to send are not modelled. A
  forwarded upstream status is sent as it is.
- Json.Lookup: its own contract says only that the value read belongs to some
  member with the key. That the last such member wins is stated separately by
  Json.LookupLastWins.
- `NaN` is not modelled as a falsy prompt, because a JSON request body cannot
  carry it. Numbers are exact reals rather than IEEE doubles.
