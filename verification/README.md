# Gremlin websocket client and chat routing, modelled in Dafny

This project models the two pieces of sequential logic in a small Python
repository: a client for a Gremlin graph server that talks JSON over one
websocket (`transporter.py`), and the connection gate and message routing of
a GraphQL chat server (`example.py`).

**Transport** (`transport.dfy`, module `Transport`). `AiohttpTransport` is a
class whose fields are updated in place by its methods. The fields are the
event loop's `closed`/`running` flags, the websocket and the client session
(each `None` until `connect`, then a resource with a `closed` flag), the queue
of frames the server will send, and the log of written messages. Each method
is proved equal to a step function on the record `TState` (`ConnectStep`,
`WriteStep`, `ReadStep`, `CloseStep`, `IsClosed`). The properties are proved
as lemmas about those step functions:
- every step keeps the state valid;
- `close` can be repeated safely;
- `read` has a defined outcome for each kind of frame.

The constructor renames the `max_content_length` and `ssl_options` options
in the same way the source does.

**Driver** (`driver.dfy`, module `Driver`). `PrepareMessage` builds the request
envelope. `StatusCode` is `response.get("status", {}).get("code")`.
`GremlinDriver.ExecuteQuery` connects, sends the envelope, then reads frames
in a loop while the code is 206. It closes the transport when the final code
is 200. The loop is proved against the recursive specification `Drain`. The
lemmas about `Drain` and `Execute` state the following:
- a successful query returns exactly the paginated reply at the head of the
  server's frames (`Paged`), in arrival order;
- that reply is unique;
- the transport ends closed exactly when the final code is 200, unless the
  event loop was already closed, in which case `close` does nothing and the
  socket stays open;
- a close frame in mid-loop fails the query and leaves the transport closed;
- a server that stops sending runs into the read timeout.

**Chat** (`chat.dfy`, module `Chat`). `Admit` and `OnConnect` check the
connection token: `str(authUser or "").strip().lower()`. A token containing
"ban" is refused. An empty token is stored as None. `GetContext` and
`ContextUser` give the user a subscription sees. `Route` is the delivery
rule. `SourceMessage` is the loop that yields the routed messages, proved
against `Selected`. The lemmas about `Selected` show that what is yielded is
exactly the routed events, in order, each at most once. They also show what
happens when a message cannot be read.

**Python built-ins** (`pytext.dfy`, `utf8.dfy`, `json.dfy`). These model the
Python built-ins the core relies on:
- `str.isspace`/`strip`/`lower`, substring `in` and `str(int)`;
- UTF-8 encoding, with a decoder and the round trip;
- JSON values, with dict lookup, truthiness and `str()`.

Parsing (`json.loads`) is a parameter `loads: seq<byte> -> Option<Json>`: a
partial function the model does not define. The fresh `uuid4()` is passed in
as `requestId`. The server's answer to the upgrade (`Upgrade`) is a parameter
of `connect`; it is either the frames the server will send or a rejection.

Three behaviours of `transporter.py` shape the model's errors:
- a refused 403 upgrade raises a plain `Exception` with a fixed message
  (`ForbiddenException`); that message carries no server text, but the
  refusal it replaces stays attached as its implicit context (see
  "## Findings");
- a payload that is not JSON raises the parser's own error (`JsonDecodeError`);
- a binary message is handed to the parser as its raw bytes.

## Model

| member | source | states |
|---|---|---|
| Transport.RenameOptions | transporter.py:28-31 | `max_content_length` and `ssl_options` are gone; their values sit under `max_msg_size` and `ssl`; every other key keeps its value; nothing else is added |
| Transport.AiohttpTransport.constructor | transporter.py:14-31 | without a caller's loop a fresh loop (not closed, not running) is used; websocket and session start as None; the options are renamed; the timeouts are stored |
| Transport.CloseHandle | transporter.py:78-81 | closing a resource leaves it closed and invokes `close()` on it only if it was open |
| Transport.CloseStep | transporter.py:74-85 | `close()` on the record: never touches the frame queue, the sent log or the loop's running flag |
| Transport.CloseOutcome | transporter.py:74-85 | on a closed loop `close` changes nothing and raises nothing; otherwise it raises exactly when the websocket or the session was never set, and on success both are closed and the loop is closed exactly when it is not running |
| Transport.IsClosed | transporter.py:87-90 | `closed` is true exactly when the websocket or the client session reports closed; it raises when there is no websocket yet |
| Transport.AiohttpTransport.Closed | transporter.py:87-90 | the property agrees with `IsClosed` on the transport's fields |
| Transport.ConnectStep | transporter.py:33-44 | a fresh session is always created; an accepted upgrade opens the websocket onto the server's frames; a 403 raises the fixed forbidden message, whose own text holds nothing from the server; other refusals are re-raised unchanged |
| Transport.ConnectTraceback | transporter.py:36-44 | the exceptions a default traceback of `connect` prints as written: for a 403 the server's refusal and then the fixed message |
| Transport.ForbiddenTracebackShowsServerText | transporter.py:38-42 | as written, the traceback of a 403 refusal still holds the server's own error text |
| Transport.ConnectTracebackFromNone | transporter.py:41-42 | the traceback once the 403 branch raises `from None`: only the exception `connect` raises |
| Transport.ForbiddenTracebackHidesServerText | transporter.py:41-42 | with the context suppressed, a refusal's traceback is exactly the error `ConnectStep` raises, and for a 403 it holds only the fixed message |
| Transport.AiohttpTransport.Connect | transporter.py:33-44 | updates the fields exactly as `ConnectStep` says and keeps them valid |
| Transport.WriteStep | transporter.py:46-48 | a write succeeds exactly on an open websocket and then appends the message to what was sent; otherwise nothing changes |
| Transport.AiohttpTransport.Write | transporter.py:46-48 | updates the fields exactly as `WriteStep` says |
| Transport.Payload | transporter.py:66-72 | the bytes `json.loads` gets: a text frame stripped and UTF-8 encoded, a binary frame as is; its outcome is stated by `ReadOutcomes` |
| Transport.Classify | transporter.py:55-72 | the branch on the message type, taken on a frame already received; its outcome per type is stated by `ReadOutcomes` |
| Transport.ReadStep | transporter.py:50-72 | a read succeeds exactly when the socket is open, a frame is waiting and its payload parses; it then consumes that one frame and returns its payload |
| Transport.ReadOutcomes | transporter.py:55-72 | every read on an open socket consumes exactly one frame; close frame: the transport is closed first, then "Connection was closed by server." is raised; closed frame: "Connection was already closed." is raised without closing; error frame: the raised message contains the frame data; text: the stripped, UTF-8 encoded text is parsed; other: the raw bytes are parsed; nothing else changes |
| Transport.AiohttpTransport.Read | transporter.py:50-72 | updates the fields and answers exactly as `ReadStep` says, closing through `Close` on a close frame |
| Transport.CloseIsRepeatable | transporter.py:74-85 | `close` raises nothing once the websocket exists; it leaves `closed` true unless the loop was already closed, in which case it changes nothing; a second `close` changes nothing and raises nothing |
| Transport.AiohttpTransport.Close | transporter.py:74-85 | updates the fields exactly as `CloseStep` says: websocket then session closed only if open, loop closed only if not running, nothing if the loop is closed |
| Transport.StepsPreserveValid | transporter.py:33-85 | connect, write, read and close keep the invariant: no websocket without a session, and no resource closed twice |
| Driver.PrepareMessage | transporter.py:100-118 | the request envelope; its fields are stated by `ArgsEnvelope` and `PrepareMessageEnvelope` and read back by `PrepareMessageRoundTrip` |
| Driver.ArgsEnvelope | transporter.py:106-112 | `args` holds the query, empty bindings, language gremlin-groovy, alias `g` to the traversal source, and `session` equal to the request id |
| Driver.PrepareMessageEnvelope | transporter.py:100-118 | the envelope's `requestId` is the given id, `op` is "eval", `processor` is "", and its `args` are as above |
| Driver.PrepareMessageRoundTrip | transporter.py:100-118 | reading the envelope back gives exactly the id, query and traversal source it was built from |
| Driver.StatusCode | transporter.py:120-122 | returns `status.code` when both keys are there; None (`Null`) when either is missing; raises AttributeError exactly when the response or its status is not a dict |
| Driver.Finish | transporter.py:139-141 | after the last frame: close the transport exactly when the code is 200; its effect is stated by `DrainReadsPage` and `ExecuteAnswersPage` |
| Driver.Drain | transporter.py:129-141 | the reading loop as a recursive function over the frame queue; its results are stated by the `Drain…` lemmas |
| Driver.DrainStep | transporter.py:134-138 | one loop turn on a readable frame: read on if the code is 206, otherwise finish |
| Driver.DrainReadsPage | transporter.py:129-141 | on a paginated reply the loop returns all its frames in arrival order after those already collected, consumes exactly those frames, and then finishes on the last code (closing on 200) |
| Driver.DrainResultIsPage | transporter.py:129-141 | whatever the loop returns successfully is a paginated reply: at least one frame, in order, every frame but the last coded 206, the last with a readable code other than 206 |
| Driver.PagedUnique | transporter.py:129-138 | at most one paginated reply sits at the head of the server's frames |
| Driver.DrainServerClose | transporter.py:134-138 | a close frame after a run of 206 frames fails the query with "Connection was closed by server." and leaves `closed` true |
| Driver.DrainTimesOut | transporter.py:134-138 | if every frame the server sends is coded 206, the query fails with the read timeout after consuming them all |
| Driver.Execute | transporter.py:124-141 | `execute_query` as a function of the transport's state; its results are stated by `ExecuteAnswersPage` and `ExecuteRejected` |
| Driver.ExecuteAnswersPage | transporter.py:124-141 | after an accepted upgrade, `execute_query` returns `rs` if and only if `rs` is the paginated reply; it then has sent the one envelope, consumed exactly the reply, and `closed` is true exactly when the final code is 200 and the event loop was not already closed |
| Driver.ExecuteRejected | transporter.py:124-128 | a refused upgrade fails the query before anything is sent; a 403 raises the fixed forbidden message, any other refusal is re-raised |
| Driver.GremlinDriver.constructor | transporter.py:95-98 | the traversal source defaults to "g"; the transport gets read and write timeouts of 3600, no options, and the caller's loop flags (a fresh loop when none is given); nothing is connected yet |
| Driver.GremlinDriver.ExecuteQuery | transporter.py:124-141 | the connect, write and read loop returns and leaves the transport exactly as `Execute` specifies |
| Utf8.DecodeEncode | transporter.py:68 | UTF-8 encoding of the stripped text loses nothing: decoding gives the text back |
| Utf8.EncodeAscii | transporter.py:68 | ASCII text encodes byte for byte |
| PyText.Strip | transporter.py:68 | the result is the slice of the text between a leading and a trailing run of whitespace, with no whitespace at either of its own ends |
| PyText.StripUnique | transporter.py:68 | any unpadded slice with only whitespace around it is exactly what `strip()` returns |
| PyText.StripUnpadded | example.py:76 | text with no whitespace at either end is left unchanged by `strip()` |
| PyText.Contains | example.py:77 | `sub in s` holds exactly when `sub` occurs at some index of `s` |
| JsonData.Lookup | transporter.py:122 | `d.get(key)` is None exactly when no pair has that key |
| JsonData.LookupAt | transporter.py:122 | a dict lookup finds the value of the last pair with that key |
| JsonData.Truthy | example.py:76 | Python's `bool()` of a JSON value: None, False, 0, "", [] and {} are falsy; used by `AuthText` |
| JsonData.PyStr | example.py:76 | `str()` of a JSON value: a string is itself, anything else its `repr`; used by `AuthText` |
| Chat.AuthText | example.py:76 | a missing or falsy `authUser` gives ""; a string gives itself |
| Chat.Normalise | example.py:76 | the token is the slice of the text between its leading and trailing whitespace, lower-cased: no whitespace at either end and no upper-case letter |
| Chat.NormaliseOf | example.py:76 | whatever whitespace surrounds an unpadded core, the token is that core lower-cased |
| Chat.NormaliseIdempotent | example.py:76 | normalising a normalised token changes nothing |
| Chat.AuthToken | example.py:76 | a non-dict payload raises AttributeError; a missing or falsy `authUser` gives ""; a string gives its normalised text; any other truthy value gives its normalised `repr` |
| Chat.Admit | example.py:75-79 | a non-dict payload raises AttributeError; otherwise the token is admitted if and only if it does not contain "ban", and a refusal carries code "BANNED" and the token as context; an admitted empty token is stored as None, a non-empty one unchanged |
| Chat.OnConnect | example.py:75-79 | on refusal the scope is untouched; otherwise only `user_token` is set, to what `Admit` gives |
| Chat.GetContext | example.py:82-88 | a websocket scope gives `{"user": user_token}` (None when absent); any other scope gives `{"request": request}` |
| Chat.ContextUser | example.py:52 | `info.context.get("user")` as the text the routing compares; a request context has no user; its use is stated by `NoUserOnlyBroadcast` and `AdmittedUser` |
| Chat.AdmittedUser | example.py:75-88 | after an accepted connect the subscription's user is the token, or None for an empty token, and never holds "ban" |
| Chat.ResolveMessage | example.py:67-69 | the message is returned unchanged |
| Chat.TextField | example.py:60-63 | `message[key]` is read as text exactly when the message is a dict holding a string there |
| Chat.Route | example.py:60-64 | a message is delivered exactly when `to.lower()` is "@all", or the user equals `to.lower()` or `sender.lower()`; the sender is not read for "@all" messages; it raises exactly when a field it reads is missing or not text |
| Chat.Selected | example.py:58-64 | the selected indices lie within the events |
| Chat.SelectedInOrder | example.py:58-64 | every delivered event is routed to the user; indices strictly increase, so messages keep their order and none is delivered twice |
| Chat.SelectedComplete | example.py:58-64 | when the subscription does not raise, every event is routable and each routed event is delivered |
| Chat.FailingEvent | example.py:58-64 | the event a raising subscription stops at: its fields cannot be read, its error is the subscription's, and every event before it routes |
| Chat.SelectedFailsAt | example.py:58-64 | a subscription that raises does so at an event whose fields cannot be read, after every event before it was routed |
| Chat.SelectedStopsAtError | example.py:58-64 | once the subscription has raised, later events change nothing |
| Chat.NoUserOnlyBroadcast | example.py:52-64 | with no user, only messages addressed to "@all" are delivered |
| Chat.SourceMessage | example.py:50-64 | without an error the loop yields exactly the selected events in order; otherwise it stops with the error of the event that cannot be read, after yielding exactly the selected events before that one |

## Left out

- Network I/O: `aiohttp.ClientSession`, `ws_connect`, `send_str` and `receive` are replaced by the `Upgrade` reply, the frame queue and the sent log. The URL, headers and options handed to `ws_connect` have no effect in the model.
- Timeouts: a read with no frame waiting fails with `ReadTimeout`, standing for the read timeout. The write timeout and the timeout durations are not modelled.
- Concurrency: asyncio scheduling and event-loop creation are not modelled. The loop is two flags owned by the transport, so sharing one loop with other code (aliasing) is not modelled. The unused `call_from_event_loop` argument and the `nest_asyncio_applied` class attribute are not modelled.
- aiohttp closes a websocket by itself when a close frame arrives (its autoclose default), and marks it closed on a CLOSED (end of stream) or ERROR message. The model leaves that closing to the transport's own `close`.
- The CLOSING, PING and PONG message types are not modelled: every frame is a close, closed, error, text or binary frame. A CLOSING message carries no data, so `json.loads(None)` would raise `TypeError`.
- Transport.ConnectStep: states the exception `connect` raises; the implicit exception chaining (`__context__`) that keeps the server's refusal attached to it is modelled apart, by `ConnectTraceback`.
- Transport.WriteStep: the exact exception aiohttp raises for a write on a closed websocket is not modelled; the model raises `ConnectionResetError`.
- `json.dumps` of the request and `json.loads` of replies and of published chat events are not defined. Replies go through the `loads` parameter. Chat events are given already decoded, because the only publisher (`resolve_send`) serialises them with `json.dumps`.
- JSON numbers with a fraction or exponent are not modelled. So Python's `206.0 == 206` case does not arise.
- JsonData.Repr: strings inside a list or dict are always quoted with `'` and are not escaped, unlike Python's `repr`. A dict whose pairs repeat a key is printed with the repeats.
- PyText.Lower: only the ASCII letters A–Z are lower-cased; Python's full Unicode case mapping is not modelled.
- Python strings holding lone surrogates cannot be written as Dafny strings. So the `UnicodeEncodeError` of `.encode('utf-8')` is not modelled.
- Chat.GetContext: requires a "type" key in the scope, which every ASGI server provides; the `KeyError` otherwise is not modelled.
- `uuid.uuid4()` is nondeterministic; the id is a parameter.
- `print` calls and both `__main__` blocks are left out.
- The GraphQL schema, the Starlette app and middleware, uvicorn, and the Redis publish/subscribe (`Broadcast`, `resolve_send`) are library wiring; they are not part of this model.

## Findings

| source | as written | input that shows it | evidently intended | confidence | as-written member | corrected member |
|---|---|---|---|---|---|---|
| transporter.py:38-42 | the fixed 403 message is raised inside `except`, so the `ClientResponseError` stays attached as implicit context and a default traceback prints it | a 403 refusal whose server message `m` holds credentials: the traceback shows `m` | `raise Exception(...) from None`, so only the fixed message is shown, as the comment at lines 39-40 asks | medium, not executed | Transport.ForbiddenTracebackShowsServerText | Transport.ForbiddenTracebackHidesServerText |
