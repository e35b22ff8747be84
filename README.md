# STOMP queue adapter, modelled in Dafny

This project models `StompAdapter`, the class that lets the Zend queue library talk to a message broker over
STOMP 1.0. The adapter is a client. It opens a session with CONNECT and expects CONNECTED in reply. It publishes
with SEND, subscribes with SUBSCRIBE and pulls MESSAGE frames. It acknowledges (deletes) a message with ACK and
closes with DISCONNECT. It also declares which queue-management operations it cannot perform.

The model has three layers:

- **Values** (`values.dfy`, `errors.dfy`, `entities.dfy`, `options.dfy`, `frames.dfy`, `mapper.dfy`, `capabilities.dfy`).
  These are PHP values with PHP truthiness, the adapter's two exceptions, and the queue, message and message-set
  records. They also cover option lookup with its defaults, the five frame builders, `getMessageFromFrame` and
  the capability table, all as pure functions. A frame is a datatype (command, header map, body). Caller headers
  are applied after the builder's own through Dafny's right-biased map union, which is exactly the
  `foreach ... setHeader` override rule.
- **Specification of the stateful operations** (`session.dfy`). This layer covers connect, disconnect, send,
  deleteMessage and receive. Each is a function from the adapter's connected flag and the client's state to a
  result and a new state. The client's state is the frames it has sent, the replies still to come and whether a
  connection is open. The receive loop is `Poll`. The lemmas about these functions cover idempotent connect,
  retry after a refused connect, and the order of CONNECT and DISCONNECT. They also cover leading-message
  extraction, the count and time budgets, the stop reasons and properties of arbitrary call sequences.
- **The adapter object** (`transport.dfy`, `adapter.dfy`). `StompClient` is the injected transport: a class with
  an append-only `sent` log, an `inbox` script of replies (`NoFrame` for PHP's `false`) and an `open` flag.
  `StompAdapter` is a class with the `connected` field. Its methods change that field and the client in place,
  and `receive` pulls frames in a `while` loop. Each method's postcondition says that its result and the new
  state are what the matching `Session` function gives for the old state.

Modelling choices:

- The clock that `receive` reads is a parameter `clock: nat -> int`. Reading 0 is taken when the loop starts, and
  reading `i + 1` is taken before pull `i`. Timeouts are integer ticks of that clock.
- `md5` is a parameter `Digest = string -> string`.
- `RECEIVE_TIMEOUT_DEFAULT` belongs to the library's adapter base class, so the adapter is given it at construction.
- Bodies are PHP byte strings, modelled as `Bytes`: strings whose characters are all below 256. So `strlen` is
  the sequence length.
- A frame whose body was never set has the empty body.
- `getHeader` of a missing header is `false`.

## Model

| member | source | states |
|---|---|---|
| `Options.GetOption` | lib/OpenSky/Queue/StompAdapter.php:44-46 | the option is null exactly when the key is missing or holds null; otherwise it is the stored value |
| `Options.OptionFallback` | lib/OpenSky/Queue/StompAdapter.php:31-78 | a getter on the constructed adapter returns the configured value (even a null one), else the default, else null |
| `Options.FreshAdapterDefaults` | lib/OpenSky/Queue/StompAdapter.php:22-38 | with no options: host `localhost`, scheme `tcp`, port `61613`, client class `Zend_Queue_Stomp_Client`, no username or password |
| `Options.Username` | lib/OpenSky/Queue/StompAdapter.php:48-50 | the configured `username`, null when missing or null |
| `Options.Password` | lib/OpenSky/Queue/StompAdapter.php:52-54 | the configured `password`, null when missing or null |
| `Options.Host` | lib/OpenSky/Queue/StompAdapter.php:56-58 | the `host` option, null when missing or null |
| `Options.Port` | lib/OpenSky/Queue/StompAdapter.php:60-62 | the `port` option, null when missing or null |
| `Options.Scheme` | lib/OpenSky/Queue/StompAdapter.php:64-66 | the `scheme` option, null when missing or null |
| `Options.StompClientClass` | lib/OpenSky/Queue/StompAdapter.php:68-70 | the `stompClientClass` option, null when missing or null |
| `Options.StompClientFrameClass` | lib/OpenSky/Queue/StompAdapter.php:72-74 | the `stompClientFrameClass` option, null when missing or null |
| `Options.StompClientConnectionClass` | lib/OpenSky/Queue/StompAdapter.php:76-78 | the `stompClientConnectionClass` option, null when missing or null |
| `Adapter.StompAdapter.IsConnected` | lib/OpenSky/Queue/StompAdapter.php:212-214 | the connected flag, read without any I/O |
| `Adapter.StompAdapter.constructor` | lib/OpenSky/Queue/StompAdapter.php:31-42 | a new adapter holds the caller's options laid over the defaults and is not connected |
| `Frames.Build` | lib/OpenSky/Queue/StompAdapter.php:129-131 | the built frame has exactly the fixed and the caller's header names; a caller header wins on a clash, and a fixed header keeps its value otherwise |
| `Frames.ConnectFrame` | lib/OpenSky/Queue/StompAdapter.php:139-155 | command CONNECT; `login` = username and `passcode` = password are present iff a username is configured, unless the caller overrides them; caller headers always win |
| `Frames.AnonymousConnect` | lib/OpenSky/Queue/StompAdapter.php:145-148 | without a username (and no caller credentials) the CONNECT frame has neither `login` nor `passcode` |
| `Frames.DisconnectFrame` | lib/OpenSky/Queue/StompAdapter.php:125-134 | command DISCONNECT carrying only the caller's headers |
| `Frames.SubscribeFrame` | lib/OpenSky/Queue/StompAdapter.php:161-173 | command SUBSCRIBE with `destination` = queue name, `ack` = `client`, `no-local` = `true`, each unless the caller overrides it; caller headers win |
| `Frames.DeleteFrame` | lib/OpenSky/Queue/StompAdapter.php:179-189 | command ACK with `message-id` = the message's handle unless the caller overrides it; caller headers win |
| `Frames.SendFrame` | lib/OpenSky/Queue/StompAdapter.php:291-301 | command SEND, body = the text, `destination` = queue name, `content-length` = byte length of the text, each unless overridden; caller headers win |
| `Mapper.MessageFromFrame` | lib/OpenSky/Queue/StompAdapter.php:303-318 | `message_id` and `handle` are equal, null iff the `message-id` header is missing or falsy, else that header; `body` is the frame body; `md5` its checksum; the message belongs to the queue |
| `Mapper.AckReferencesReceivedFrame` | lib/OpenSky/Queue/StompAdapter.php:182 | the ACK for a message mapped from a frame carries that frame's own `message-id` |
| `Capabilities.GetCapabilities` | lib/OpenSky/Queue/StompAdapter.php:411-422 | exactly eight operations; true for send, receive and deleteMessage, false for create, delete, getQueues, count and isExists |
| `Session.Connect` | lib/OpenSky/Queue/StompAdapter.php:83-102 | when connected: succeeds and changes nothing. Otherwise it sends one CONNECT frame and consumes one reply, and it succeeds iff the reply is no frame or CONNECTED. It is connected afterwards iff it succeeded, and a failure names scheme, host and port |
| `Adapter.StompAdapter.Connect` | lib/OpenSky/Queue/StompAdapter.php:83-102 | the method's result, flag and client state are those of `Session.Connect` |
| `Session.ConnectTwice` | lib/OpenSky/Queue/StompAdapter.php:84-100 | two connects after an accepted reply perform one CONNECT exchange: one frame sent, one reply consumed |
| `Session.RefusedConnectIsRetried` | lib/OpenSky/Queue/StompAdapter.php:90-99 | a refused CONNECT fails with the authentication error, leaves the adapter disconnected, and the next connect sends a second CONNECT |
| `Session.Disconnect` | lib/OpenSky/Queue/StompAdapter.php:107-116 | always disconnected afterwards; one DISCONNECT frame is sent iff it was connected and the client has an open connection; replies and connection untouched |
| `Adapter.StompAdapter.Disconnect` | lib/OpenSky/Queue/StompAdapter.php:107-116 | the method's flag and client state are those of `Session.Disconnect` |
| `Session.ConnectThenDisconnect` | lib/OpenSky/Queue/StompAdapter.php:83-116 | an accepted connect followed by a disconnect over an open connection sends exactly CONNECT then DISCONNECT and ends disconnected |
| `Session.DisconnectIdempotent` | lib/OpenSky/Queue/StompAdapter.php:107-116 | a second disconnect sends nothing and changes nothing |
| `Session.Send` | lib/OpenSky/Queue/StompAdapter.php:328-336 | a failed connect is passed on unchanged; otherwise one SEND frame is appended after the connect exchange and the result is the message mapped from that frame |
| `Session.SentMessageEchoesText` | lib/OpenSky/Queue/StompAdapter.php:332-335 | the message `send` returns belongs to the queue, has the sent text as body and its checksum, and has null id and handle unless the caller supplied `message-id` |
| `Adapter.StompAdapter.Send` | lib/OpenSky/Queue/StompAdapter.php:328-336 | the method's result, flag and client state are those of `Session.Send` |
| `Session.DeleteMessage` | lib/OpenSky/Queue/StompAdapter.php:390-397 | a failed connect is passed on unchanged; otherwise exactly one ACK frame for the message is appended and the result is true |
| `Adapter.StompAdapter.DeleteMessage` | lib/OpenSky/Queue/StompAdapter.php:390-397 | the method's result, flag and client state are those of `Session.DeleteMessage` |
| `Session.Poll` | lib/OpenSky/Queue/StompAdapter.php:359-369 | the loop keeps no more frames than there are replies, and no more than the count budget allows |
| `Session.PollKeepsLeadingMessages` | lib/OpenSky/Queue/StompAdapter.php:359-369 | the kept frames are the leading replies in arrival order; each is a MESSAGE frame, pulled while both the count and time budgets held |
| `Session.PollStopsForCause` | lib/OpenSky/Queue/StompAdapter.php:359-366 | if both budgets still allow another pull, the loop stopped because the next reply is no frame or not a MESSAGE |
| `Session.PollLeavesRest` | lib/OpenSky/Queue/StompAdapter.php:360-366 | a reply that stops the loop is consumed; when a budget stops it, nothing more is pulled |
| `Session.Receive` | lib/OpenSky/Queue/StompAdapter.php:347-378 | a failed connect is passed on. Otherwise it is connected, exactly one SUBSCRIBE follows the connect exchange and the connection flag is untouched. The replies left are those the loop did not consume. The set belongs to the queue and holds at most the resolved count (a zero count means 1, a negative one means none) |
| `Session.ReceiveStopsForCause` | lib/OpenSky/Queue/StompAdapter.php:359-366 | if both budgets still allow another pull after the returned messages, the next reply is no frame or not a MESSAGE |
| `Session.ResolveMax` | lib/OpenSky/Queue/StompAdapter.php:352 | a null or zero count becomes 1; any other count is kept |
| `Session.ResolveTimeout` | lib/OpenSky/Queue/StompAdapter.php:351 | a null or zero timeout becomes the default; any other timeout is kept |
| `Session.ReceiveReturnsLeadingMessages` | lib/OpenSky/Queue/StompAdapter.php:363-369 | the returned messages are the data of the leading MESSAGE frames after the connect exchange, in arrival order |
| `Session.ReceiveHonoursTimeout` | lib/OpenSky/Queue/StompAdapter.php:355-362 | if the time budget is spent by the check before pull j, at most j messages come back |
| `Session.ReceiveTwoWaitingMessages` | test/OpenSky/Queue/StompQueueTest.php:198-221 | two waiting MESSAGE frames and a count of two: both come back with ids and bodies in order, after one CONNECT and one SUBSCRIBE |
| `Adapter.StompAdapter.Receive` | lib/OpenSky/Queue/StompAdapter.php:347-378 | the method's result, flag and client state are those of `Session.Receive` |
| `Adapter.StompAdapter.PollMessages` | lib/OpenSky/Queue/StompAdapter.php:355-369 | the loop's messages and remaining replies are those of `Session.Poll` from pull 0; nothing is sent |
| `Session.Apply` | lib/OpenSky/Queue/StompAdapter.php:83-397 | any call only appends to the sent log and leaves the client's open-connection flag alone. A call that connects sends a CONNECT first. A connected adapter stays connected and sends no CONNECT on any call except disconnect |
| `Session.RunOnlyAppends` | lib/OpenSky/Queue/StompAdapter.php:83-397 | over any sequence of calls the sent log only grows |
| `Session.RunKeepsHandshake` | lib/OpenSky/Queue/StompAdapter.php:83-101 | over any sequence of calls the adapter is never connected unless a CONNECT frame has been sent |
| `Session.NoReconnectWhileConnected` | lib/OpenSky/Queue/StompAdapter.php:83-101 | a connected adapter that is not disconnected stays connected and sends no further CONNECT, whatever it serves |
| `Adapter.StompAdapter.IsExists` | lib/OpenSky/Queue/StompAdapter.php:225-227 | fails with "isExists not supported", changes nothing, and the capability table says false |
| `Adapter.StompAdapter.Create` | lib/OpenSky/Queue/StompAdapter.php:242-244 | fails with "create not supported", changes nothing, and the capability table says false |
| `Adapter.StompAdapter.Delete` | lib/OpenSky/Queue/StompAdapter.php:254-256 | fails with "delete not supported", changes nothing, and the capability table says false |
| `Adapter.StompAdapter.GetQueues` | lib/OpenSky/Queue/StompAdapter.php:266-268 | fails with "getQueues not supported", changes nothing, and the capability table says false |
| `Adapter.StompAdapter.Count` | lib/OpenSky/Queue/StompAdapter.php:276-278 | fails with "count not supported", changes nothing, and the capability table says false |

Three points of the model that are easy to miss:

- In the model, a username without a password gives a `passcode` header holding null. The adapter passes
  `getPassword()` to `setHeader` whenever a username is set (lib/OpenSky/Queue/StompAdapter.php:145-148).
- An option explicitly configured as null hides its default and reads as null, because `_getOption` uses
  `isset`. `OptionFallback` states this.
- The receive time budget is checked only before each pull (lib/OpenSky/Queue/StompAdapter.php:360). So
  `ReceiveHonoursTimeout` bounds the count by the first check that finds the budget spent. It does not promise any
  wall-clock bound.

## Left out

- Socket I/O and the STOMP wire encoding (command line, header lines, blank line, body, NUL) belong to the
  transport client. The client is modelled only by what the adapter sees of it: the frames sent, the scripted
  replies, and whether a connection is open.
- `getStompClient` (lib/OpenSky/Queue/StompAdapter.php:191-205) instantiates a client class chosen by name, and
  `setStompClient` (lib/OpenSky/Queue/StompAdapter.php:207-210) stores a client it is given. Both are replaced by
  injecting the client through the constructor. The client, connection and frame class options are kept only as
  option values.
- The client's `send` and `receive` always succeed in the model, even when no connection is open. In the adapter,
  errors from the client pass through unchanged. A failing exchange in `connect` (lib/OpenSky/Queue/StompAdapter.php:87-89)
  leaves the adapter disconnected. A failing write in `send` or `deleteMessage` (lib/OpenSky/Queue/StompAdapter.php:333,
  394) leaves it connected. These error paths are not modelled.
- `(int) $maxMessages` and `(float) $timeout` (lib/OpenSky/Queue/StompAdapter.php:351-352) convert whatever the
  caller passed. The model takes both as integers already, so the conversion of strings, floats or other values is
  not modelled.
- `microtime(true)` is a floating-point wall clock. It becomes the integer-valued `clock` parameter, and a float
  timeout becomes integer ticks.
- `md5` is a foreign hash. It is the `Digest` parameter, about which nothing is assumed.
- The Zend queue, message and message-set classes are plain datatypes. They hold the queue name and the message
  data arrays (`toArray()`). The message and message-set class names taken from the queue are not modelled.
- The fallback to the adapter's current queue when none is passed (lib/OpenSky/Queue/StompAdapter.php:331, 350)
  is left out: every operation takes an explicit queue.
- The `func_get_arg(3)` headers argument is an explicit `extra` parameter. The adapter's own `connect()` calls
  pass no headers, as in the source.
- `__destruct` (lib/OpenSky/Queue/StompAdapter.php:118-120) only calls `disconnect`. It is not modelled
  separately.
- The merge of caller options over the defaults happens in the library's adapter base class, which is not part
  of this model. `Options.Merge` assumes it is a plain overlay in which the caller's keys win, as the option
  tests expect.
- Adapter.StompAdapter.IsExists: the exception carries only the operation name, not the full message text. The
  same holds for `Create`, `Delete`, `GetQueues` and `Count`.
- Validation that the frame class may apply to header names and values is not part of this model.
- `autoload.php` is class-loader wiring.
