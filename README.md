# PSGPT backend proxy: request-handler model

`server.js` is an Express proxy between the PSGPT web client and NVIDIA's
hosted APIs. It hides two API keys and relays two kinds of requests:

- streaming chat completions, copied from the upstream's event stream to the
  client chunk by chunk;
- image generation, a single JSON round trip.

An origin allow-list sits in front of both.

This project models the decision procedure of each handler with the network
replaced by inputs:

- `json.dfy` (module `Json`): parsed JSON values, JavaScript truthiness,
  property access on an object, and the `{error: message}` envelope.
- `http.dfy` (module `Http`): the Express response object as a class
  `Response`. Its fields are the status, the header map, a log of what has
  been sent (writes, JSON bodies, the end) and Node's `headersSent` and ended
  flags. Headers go out with the first `write` or `end`, not with
  `setHeader`. `setHeader` and `res.json` are refused once headers are sent,
  and `write` and `end` once the response has ended. The module also holds
  the upstream request both relays send.
- `cors.dfy` (module `Cors`): the origin callback over the four-entry
  allow-list.
- `chat.dfy` (module `Chat`): the chat handler. The upstream is a datatype:
  `fetch` rejects, or it resolves with a status, an error text (or a throwing
  `text()`), a list of already-decoded chunks and an optional index of the
  read that throws. `Pump` is the `while (true)` loop. `Stream` adds the
  stream headers and the catch block. `Relay` is the whole handler. Each is
  proved equal to a state function (`StreamOutcome`, `Outcome`), and the
  lemmas then prove the relay's promises about that function.
- `image.dfy` (module `Image`): destructuring with defaults (`Param`), the
  six-field outbound body (`OutboundBody`), the key and prompt checks
  (`Gate`), the upstream-outcome mapping (`Outcome`) and the handler
  (`Handle`).

Some behaviour of the code that a reader might not expect:

- On a successful stream the client gets the status the response already
  had (Express's default 200), not the upstream's own 2xx status. Only
  rejections are mirrored.
- The image handler refuses any falsy `prompt`, not only a missing one:
  `null`, `false`, `0` and `""` are refused too.
- No broken-client detection exists in the pump loop.
- When the first `read()` throws, the reply is the 500 JSON error, as the
  code intends. But `res.json` sets a JSON content type only when none is
  set, so that reply keeps the `Content-Type: text/event-stream` header set
  just before (`Chat.FirstReadFailure`).

## Model

| member | source | states |
|---|---|---|
| Cors.Includes | server.js:20 | `includes` answers true exactly when the origin is on the list |
| Cors.OriginDecision | server.js:17-23 | allowed exactly when the origin is missing, empty, or on the allow-list; a rejection carries "Not allowed by CORS" |
| Cors.OriginGate | server.js:9-24 | requests without an origin and the four listed origins pass; every other non-empty origin is rejected, including a listed one in other letter case or with a trailing slash |
| Http.Post | server.js:49-57 | the upstream request carries exactly the bearer credential, a JSON content type, the requested `Accept` value and the given body |
| Http.Writes | server.js:81 | one `write` event per chunk, in the chunks' order |
| Http.WritesDeliver | server.js:73-82 | writing the chunks one by one delivers their concatenation and never ends the response |
| Http.ConcatPrefix | server.js:73-82 | the text of the first k chunks is a prefix of the whole text, followed by the text of the rest |
| Http.StreamShape | server.js:73-82 | chunks followed by `end` form a stream log that delivers their concatenation and ends exactly once, last |
| Http.Response.constructor | server.js:41 | a handler starts from status 200, the headers earlier middleware set, and nothing sent |
| Http.Response.SetStatus | server.js:45 | `res.status` changes the status only |
| Http.Response.SetHeader | server.js:66-68 | `setHeader` updates one header, is refused once headers are sent, and does not send them |
| Http.Response.Write | server.js:81 | `write` appends the chunk, sends the headers and leaves the response open; refused after the end |
| Http.Response.End | server.js:77 | `end` appends the end and sends the headers; refused after the end |
| Http.Response.SendJson | server.js:45 | `res.json` sets a JSON content type if none is set, sends the body and ends the response; refused once headers are sent |
| Http.Answer | server.js:45 | `res.status(code).json(body)` leaves the reply's status, the JSON body and one end |
| Chat.Pump | server.js:73-83 | the loop writes every chunk in order then ends once; when a read throws, it stops with exactly the earlier chunks written and the response open |
| Chat.Stream | server.js:65-93 | sets the three event-stream headers before pumping; after a failure, replies 500 JSON only if nothing was sent, else only ends |
| Chat.Relay | server.js:41-94 | the whole handler: no upstream request without a key, the body forwarded verbatim otherwise, and the response left as the chat outcome says |
| Chat.KeyCheckedFirst | server.js:42-46 | without a key the reply is 500 `{error: 'NVIDIA API key not configured on server'}`, independent of the upstream |
| Chat.RejectionMirrored | server.js:59-63 | a non-ok upstream's status and error text are mirrored as `{error: text}`, with no event-stream text written |
| Chat.StreamRelaysEverything | server.js:65-82 | a complete stream writes each chunk once, in order, delivers their concatenation and ends exactly once; the status is untouched and the stream headers are set |
| Chat.FailureBeforeWrite | server.js:86-89 | `fetch` rejecting, `text()` throwing on a rejection, or the first read throwing each give 500 `{error: 'Failed to proxy request to NVIDIA API'}` and no streamed text |
| Chat.FirstReadFailure | server.js:66-89 | a failure on the first read still yields 500 `{error: 'Failed to proxy request to NVIDIA API'}`, keeping the event-stream content type |
| Chat.MidStreamFailure | server.js:73-92 | a failure after the first write only ends the response: the client has a prefix of the upstream text, no JSON, and one end |
| Chat.EveryReplyEndsOnce | server.js:41-94 | every chat reply is a single JSON body or a run of writes, ends exactly once and last; JSON never follows streamed text |
| Image.OutboundBody | server.js:104-132 | the outbound body has exactly the six fields in order; each is the caller's value when present (even `null`), else its default |
| Image.Gate | server.js:100-124 | forwarded exactly when the key is configured and the prompt is truthy; refusals are 500 (key) before 400 (prompt) with their messages; a forwarded request carries `Bearer <image key>` and `Accept: application/json` |
| Image.Outcome | server.js:135-146 | a non-ok status is mirrored as `{error: text}`; an ok body passes through as parsed under the response's own status; any throw gives 500 'Failed to generate image' |
| Image.Handle | server.js:97-147 | the whole handler: no upstream request unless both checks pass, and the response left with the resolved reply |
| Image.DefaultsTable | server.js:104-111 | given only a prompt, the outbound body has `negative_prompt: ''`, `cfg_scale: 5`, `aspect_ratio: '16:9'`, `seed: 0`, `steps: 50` |
| Image.OtherFieldsDropped | server.js:125-132 | bodies that agree on the six fields produce the same outbound body, so other caller fields never reach the upstream |
| Image.ChecksBeforeUpstream | server.js:100-118 | a refused request gets the same reply whatever the upstream does; without a key the reply is 500 whatever the body |
| Image.FalsyPromptRefused | server.js:113-115 | a missing, `null`, `false`, `0` or empty prompt gets 400 'Prompt is required' when the key is set |

## Left out

- Express routing, the `app.use` wiring and `express.json`: parsing and its 10 MB limit are library behaviour not shown. The chat body is an already-parsed value. The image body is an already-parsed object, given as a map; an array body is not modelled.
- The `cors` middleware's handling of the callback's error, and its use of the permitted methods and headers (kept only as constants): library behaviour.
- `fetch` and the network: replaced by the upstream datatypes (status, error text, chunks, failing read, parsed JSON).
- `TextDecoder`'s streaming UTF-8 decoding: chunks are already-decoded strings. This also leaves out the final `decode()` flush that the source never calls, so bytes of a character cut off at the very end of the stream are not modelled.
- Interleaving of concurrent requests, backpressure and client disconnects: none is implemented in the source.
- The health endpoints: constant JSON plus a wall-clock timestamp.
- Loading keys through `dotenv`/`process.env`: keys are optional parameters. Console logging and `app.listen` are left out too.
- Http.Response.SendJson: does not model the charset suffix, `Content-Length` or `ETag` that Express's `send` adds, only the JSON content type that `res.json` sets.
- Header names are compared as written, not case-insensitively as Node does; the handlers always use the same spelling.
- Errors thrown by `write`, `end` or `res.json` on a broken socket are not modelled.
- Upstream statuses are restricted to 200..599 (`FetchStatus`) as a modelling choice. The Fetch Standard allows any status from 0 to 999, and the handlers would mirror a 6xx as well.
- Chat.RejectionMirrored: Express's `send` drops the body of a 304 reply, so a mirrored 304 reaches the client without the `{error: text}` the lemma lists in the log; the log records what the handler sends, not what survives.
- Image.Outcome: the same 304 body stripping applies to a mirrored 304 image rejection.
- An ok upstream with a null body (204, 205) makes `getReader()` throw after the stream headers are set; the model represents it as a failure of the first read (`failAt` = 0), which gives the same reply.
- JSON numbers are integers. Fractional numbers (including a fractional `cfg_scale`) are not modelled, and neither is JavaScript's truthiness of values such as `NaN`.
