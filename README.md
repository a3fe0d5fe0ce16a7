# web-driverify: forward handshake and screenshot header stripping

A Dafny model of two pieces of the web-driverify proxy, which sits between a
WebDriver client and the browser it drives.

- **The `Foward` endpoint** (`forward.dfy`, module `Forward`). The route handler
  for `POST /session/:sid/forward` creates a new endpoint instance and makes it
  the request's active endpoint. It stages `{cmd: dto(), data: 'forward
  complete'}` in the session's single-slot mailbox `session.storage.confirm`
  and calls `next`. The endpoint's `transform` hook later empties the slot and
  returns the response payload unchanged. Session storage is a string-keyed map
  field of a `Session` class. The request, the continuation, the response and
  the router are classes too. The handshake state is read off the `confirm`
  key: `Idle` (absent or null), `Awaiting` (a staged confirmation), or, for a
  value some other code put there, `Foreign`. A run of requests on one session
  is the pure function `Replay` over a sequence of calls. The lemmas about
  `Replay` state the single-slot and frame properties.
- **The screenshot driver** (`screen_capture.dfy`, module `ScreenCapture`).
  `wd.handlers.Screenshot` is registered in the shared handler table, a map
  field of a `Wd` class. The registered handler removes the leading header
  `data:<media type>;base64,` from the canvas's PNG data URL. The source does
  this with `str.replace(/^data:[^;]*;base64,/, '')`. That expression is the
  pure function `StripDataUriHeader`. It is built from the scan `[^;]*` performs
  (`NextSemicolon`) and the match length (`HeaderLength`). It is proved to agree
  with an independent definition of what the regular expression accepts
  (`IsHeader`), in `HeaderLengthComplete`.

## Model

| member | source | states |
|---|---|---|
| Forward.Staged | src/endpoints/forward.js:10-13 | staging leaves the slot Awaiting `{cmd: dto, data: "forward complete"}`, keeps every other key and its value, and adds only `confirm` to the keys |
| Forward.Cleared | src/endpoints/forward.js:19 | clearing leaves `confirm` present and null (state Idle) and every other key and value as it was |
| Forward.TransformIdempotent | src/endpoints/forward.js:17-21 | clearing twice gives the same storage as clearing once |
| Forward.StageThenTransform | src/endpoints/forward.js:10-19 | stage then clear ends Idle, with the same storage as clearing the original storage |
| Forward.StageOverwrites | src/endpoints/forward.js:10-13 | a second staging replaces the first entirely; the slot is Awaiting the second DTO only |
| Forward.ReplayFrame | src/endpoints/forward.js:10-19 | no sequence of forward requests and transform passes changes any storage key other than `confirm` |
| Forward.ReplayLastCallDecides | src/endpoints/forward.js:8-21 | after a non-empty sequence of calls, the slot's state is the effect of the last call alone |
| Forward.ReplayForgetsSlot | src/endpoints/forward.js:10-19 | storages that differ only under `confirm` become identical after any non-empty run: nothing earlier is queued behind the slot |
| Forward.Foward.Express | src/endpoints/forward.js:7-16 | registering the endpoint appends exactly the route `POST /session/:sid/forward`, bound to the forward handler, to the router |
| Forward.Foward.ForwardRoute | src/endpoints/forward.js:8-15 | the handler stores a freshly allocated endpoint as `req.endpoint`, stages that endpoint's DTO with "forward complete" in the slot (Awaiting), changes no other storage key, calls `next` exactly once and leaves the response untouched |
| Forward.Foward.Transform | src/endpoints/forward.js:17-21 | the hook returns its payload unchanged and leaves the slot null (Idle) with everything else in storage as it was |
| ScreenCapture.NextSemicolon | src/proxy/assets/drivers/screen-capture.js:8 | the greedy scan `[^;]*` stops at the first `;` at or after its start, or at the end of the string, and crosses no `;` |
| ScreenCapture.HeaderLength | src/proxy/assets/drivers/screen-capture.js:8 | a found match length delimits a prefix that is a header `data:[^;]*;base64,`; input not starting with `data:` matches nothing |
| ScreenCapture.StripDataUriHeader | src/proxy/assets/drivers/screen-capture.js:8 | the result is always a suffix of the input; input not starting with `data:` is returned unchanged |
| ScreenCapture.HeaderLengthComplete | src/proxy/assets/drivers/screen-capture.js:8 | a prefix of length n is a header if and only if the match length found is n |
| ScreenCapture.HeaderUnique | src/proxy/assets/drivers/screen-capture.js:8 | a string starts with at most one header, because `[^;]*` cannot cross a `;` |
| ScreenCapture.StripCases | src/proxy/assets/drivers/screen-capture.js:8 | with no header at the start the input comes back unchanged; with a header of length n the result is the input minus its first n characters |
| ScreenCapture.StripRoundTrip | src/proxy/assets/drivers/screen-capture.js:8 | stripping `"data:" + m + ";base64," + p`, with no `;` in m, yields exactly p, whose length is the input's length minus the header's |
| ScreenCapture.StripKeepsUnmatchedHeader | src/proxy/assets/drivers/screen-capture.js:8 | when the first `;` after `data:` is not followed by `base64,`, the input is returned unchanged |
| ScreenCapture.CharsetHeaderKept | src/proxy/assets/drivers/screen-capture.js:8 | `data:text/plain;charset=utf-8;base64,SGk=` is not stripped |
| ScreenCapture.StripKeepsLaterHeader | src/proxy/assets/drivers/screen-capture.js:8 | a header that appears after any non-empty text not starting with `data:` is left in place: only a leading match is removed |
| ScreenCapture.StripIdempotent | src/proxy/assets/drivers/screen-capture.js:8 | stripping the result again changes nothing when the result contains no `:` |
| ScreenCapture.PngDataUrlStrip | src/proxy/assets/drivers/screen-capture.js:7-8 | for a PNG data URL with a base64 payload, stripping yields the payload, and stripping again returns the same payload |
| ScreenCapture.WithScreenshot | src/proxy/assets/drivers/screen-capture.js:4 | after registration, `Screenshot` maps every data URL to its stripped payload, and every other handler entry is unchanged |
| ScreenCapture.Wd.RegisterScreenshot | src/proxy/assets/drivers/screen-capture.js:4 | the in-place assignment updates the `wd.handlers` field as `WithScreenshot` describes |

## Left out

- The `Endpoint` base class, `Endpoint.register` (src/endpoints/forward.js:24), the endpoint registry and the `created` event are not part of this model. They are defined in src/endpoints/index.js, outside the modelled core, so registration, lookup and duplicate-name handling are not modelled.
- `dto()` comes from that base class. The model represents it as `Foward.Dto()`, the pair of the instance's identifier and the command name `Foward`. The identifier that the base-class constructor would assign is an argument of `ForwardRoute`.
- The dispatcher that decides when `transform` runs, and that attaches the pending confirmation to a later response, is not part of this model. `Replay` assumes a transform pass may happen after any request, as described by the calls it is given.
- The handshake is meant to attach the staged DTO to the next response and to warn when a pending confirmation is overwritten. The code of `transform` returns `data` unchanged and does not attach anything, and the route handler overwrites `confirm` without a warning. The model follows the code.
- `debug(...)` logging (src/endpoints/forward.js:4,18) has no effect on state and is left out.
- The model assumes the session middleware has attached `req.session` and its `storage`; without them src/endpoints/forward.js:10 and :19 throw a TypeError, which is not modelled. The base-class constructor and `dto()` could also throw, which is not modelled either.
- ScreenCapture.WithScreenshot: the registered function is, in the source, a thunk that renders `document.body` with html2canvas and resolves a promise. The model takes the data URL from `canvas.toDataURL('image/png')` as the handler's input, because the rendering and the promise are foreign code. Asynchrony and rejection are not modelled.
- Concurrency in a session is not modelled: calls are sequential, as the protocol client issues one request at a time per session.
- Express wiring, static assets, the view engine, body parsing and the error handler (src/proxy/index.js) are not modelled. Neither is the test orchestration (test/fixtures/index.js). Both are plumbing around the modelled core.
