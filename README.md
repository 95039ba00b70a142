# gogo-mc-bedrock-server, modelled in Dafny

This project models two consoles for a Bedrock Minecraft server.

**The dashboard.** The central dashboard keeps one WebSocket connection
to each remote server wrapper (an agent next to a game server). For each
connection it:

- dials the wrapper, and backs off and retries when the dial fails;
- relays dashboard commands to the wrapper through a bounded send queue;
- fans the wrapper's output out to subscribed browser sockets.

Its HTTP front puts a shared-secret gate in front of a small API. The API
lists the wrappers, retries one, asks for the status of the game server
behind one (over a RakNet unconnected ping, whose pong is parsed here),
and opens a browser socket that forwards commands.

**The single-agent consoles.** Two smaller consoles keep a bounded
history of the game server's output and pass input back to it:

- the WebSocket server of `internal/server/server.go`;
- the polling console of `cmd/msw/main.go`.

**How it is modelled.**

- Each connection's state is a value, `Connection.ConnState`. Every
  operation is a step function on that value:
  - the `manage` goroutine;
  - the read and write pumps;
  - `Retry`, `SendMessage`, teardown.
- The class `Connection.WrapperConnection` holds the same state in
  fields. Each of its methods is proved to perform exactly its step.
- The reconnect signal is an unbuffered channel, and every sender uses a
  non-blocking `select`. So a signal is taken only while `manage` is
  blocked on it. The `phase` field records where `manage` is.
- The registry (`Registry.ConnectionManager`) and the consoles are
  classes over maps, sets and sequences.
- Pure parsing and decisions are functions, with lemmas about them:
  - splitting the pong and reading its numbers;
  - the authentication gate;
  - routing;
  - handler prechecks.

## Model

| member | source | states |
|---|---|---|
| Text.TrimPrefix | internal/server/manager.go:195 | the prefix is removed exactly when present: the input is the prefix followed by the result, otherwise the result is the input |
| Text.TrimSuffix | internal/server/manager.go:196 | the suffix is removed exactly when present |
| Text.LastIndex | internal/server/manager.go:200 | None exactly when the character does not occur; otherwise a position holding it, with no occurrence after it |
| Text.NatToString | internal/server/manager.go:364 | the `%d` rendering: a non-empty digit string whose value is n, with no leading zero except for 0 itself |
| CentralAuth.BearerKey | internal/server/central_auth.go:15-18 | a key exists exactly when the header is longer than 7 characters and starts with "Bearer ", and then the header is "Bearer " + key |
| CentralAuth.ExtractKey | internal/server/central_auth.go:12-28 | precedence: the Bearer key, else X-Auth-Key, else the `auth` query parameter; empty exactly when all three are empty |
| CentralAuth.ConstantTimeCompare | internal/server/central_auth.go:36 | 1 exactly when the two strings are equal, 0 otherwise |
| CentralAuth.Authorize | internal/server/central_auth.go:12-39 | admits exactly when the extracted key is non-empty and equals the secret; 401 "Missing authentication key" / "Invalid authentication key" otherwise |
| CentralAuth.Guard | internal/server/central_auth.go:9-43 | the wrapped handler's response exactly when admitted, otherwise the 401 with the gate's message |
| CentralAuth.BareBearerIsEmpty | internal/server/central_auth.go:16 | a header of exactly "Bearer " carries no key |
| CentralAuth.EmptySecretAdmitsNothing | internal/server/central_auth.go:30-39 | with an empty configured secret every request is refused |
| CentralAuth.HigherChannelShadows | internal/server/central_auth.go:15-39 | a wrong key on a higher-precedence channel is refused as invalid even if a lower channel has the right one |
| CentralAuth.EachChannelAdmits | internal/server/central_auth.go:15-41 | the right secret alone on any one of the three channels is admitted |
| Raknet.Split | internal/raknet/raknet.go:34 | bytes.Split gives one more piece than there are separators, and no piece holds the separator |
| Raknet.JoinOfSplit | internal/raknet/raknet.go:34 | joining the pieces of a split gives the input back |
| Raknet.SplitOfJoin | internal/raknet/raknet.go:34 | splitting a join of separator-free pieces gives the pieces back |
| Raknet.AtoiOfDecimal | internal/raknet/raknet.go:45-49 | on an optionally signed digit string, Atoi gives its value clamped to the 64-bit range |
| Raknet.AtoiOfNonDecimal | internal/raknet/raknet.go:45-49 | on anything else Atoi gives 0 or a 64-bit bound, and 0 when the text is shorter than 19 bytes |
| Raknet.AtoiOfDecimalBytes | internal/raknet/raknet.go:45-49 | Atoi reads back the decimal rendering of any value up to 2^63 - 1 |
| Raknet.AtoiOverflowBeforeJunk | internal/raknet/raknet.go:45 | digits past 2^64 - 1 followed by junk are not a number, yet give the 64-bit maximum rather than 0 |
| Raknet.ParsePong | internal/raknet/raknet.go:34-49 | text fields come from positions 0, 1, 3, 6, 7 and 8 of the split; the protocol version stays 0 |
| Raknet.GetPong | internal/raknet/raknet.go:26-52 | a failed ping gives the zero record and "error pinging <addr>: ..."; a reply gives ParsePong of its payload and no error |
| Raknet.ParseOfJoin | internal/raknet/raknet.go:34-49 | twelve or more separator-free fields, joined and parsed, land in their positions; the numbers go through Atoi |
| Raknet.ParseOfEncode | internal/raknet/raknet.go:11-52 | round trip: a pong with separator-free text, non-negative 64-bit numbers and protocol 0 is recovered from its payload |
| Connection.Initial | internal/server/manager.go:88-101 | the constant the source builds for a new connection; it keeps the invariant |
| Connection.Wake | internal/server/manager.go:280-314 | a blocked `manage` that takes the signal dials next: after the last attempt with the counter reset, while connected with the socket closed; keeps the invariant |
| Connection.Signal | internal/server/manager.go:396-400 | the pumps' non-blocking signal reaches `manage` exactly when it is blocked on it, and changes nothing otherwise; keeps the invariant |
| Connection.RetryStep | internal/server/manager.go:135-154 | refused while connected or connecting; succeeds exactly when `manage` is blocked, and then the status is `connecting`; otherwise "connection is closed" or "retry already in progress"; keeps the invariant |
| Connection.SendStep | internal/server/manager.go:171-184 | refused when not connected; queued at the end exactly when there is room and the closed case does not win; otherwise "message buffer full" or "connection is closed", state unchanged; keeps the invariant |
| Connection.SendAll | internal/server/manager.go:171-184 | one answer per message |
| Connection.SendAllFills | internal/server/manager.go:171-184 | with no writer draining, sends are accepted in order until the queue is full, then each is refused as full |
| Connection.CapacityOfHundred | internal/server/manager.go:96 | of more than 100 sends to an empty stalled queue, the first 100 are queued in order and the rest refused |
| Connection.DialStep | internal/server/manager.go:256-384 | a prior socket is dropped. Success: connected, socket open, error cleared, counter reset to 0, connection time stamped, one reconnection counted, both pumps started. Any failure: no socket, stats and pumps unchanged. 401: error "authentication failed" and `manage` returns. Other failure: error "failed to connect to wrapper: " plus the dial error, then counter + 1 with a 5*counter-second sleep; at the maximum, the retry message and a wait; once `done` is closed, status error and `manage` returns. Keeps the invariant |
| Connection.RunDials | internal/server/manager.go:255-296 | the number of dials never exceeds the outcomes supplied |
| Connection.BackoffFrom | internal/server/manager.go:277-292 | from counter a, repeated transient failures give exactly 6 - a dials sleeping 5(a+1) ... 25 s, then the maximum-attempts error and a wait, no reconnection counted |
| Connection.BackoffFromFresh | internal/server/manager.go:277-292 | from a fresh counter: six dials, sleeps 5, 10, 15, 20, 25 (75 s), then a wait for a manual retry |
| Connection.AuthFailureIsFinal | internal/server/manager.go:256-264 | after a 401, `manage` has returned and every later Retry is "retry already in progress" with no effect |
| Connection.ReceiveStep | internal/server/manager.go:440-459 | a payload adds one to the received counter, stamps the time and drops the clients whose write failed; nothing else changes |
| Connection.ReadPumpExitStep | internal/server/manager.go:387-437 | the status ends `disconnected` (overwriting `error` from a read failure); the error records the cause; the socket is closed; a blocked `manage` dials next (with the counter reset when it was waiting for a retry), any other phase stays; stats, queue, clients and `done` unchanged |
| Connection.DeliverStep | internal/server/manager.go:493-525 | the oldest queued message is written and removed, the sent counter goes up by one and the message time is stamped; nothing else changes |
| Connection.WritePumpExitStep | internal/server/manager.go:466-519 | a message whose send failed leaves the queue uncounted; if the close frame fails, status, phase, socket and counter stay; otherwise the socket is closed, the status becomes `disconnected`, and a blocked `manage` dials next (counter reset after a retry wait) while any other phase stays; keeps the invariant |
| Connection.CloseStep | internal/server/manager.go:237-246 | `done` is closed, the socket (if any) is closed, a blocked `manage` returns; status, error, stats, queue, clients, counter and pump counts stay |
| Connection.ReturnedIsFinal | internal/server/manager.go:252-319 | once `manage` has returned, no step brings it back |
| Connection.CountersNeverDecrease | internal/server/manager.go:374-377 | no step lowers the sent, received or reconnection counter |
| Connection.ProbeAddress | internal/server/manager.go:187-215 | an empty address is an error; otherwise the host part with port 19132, or the override when one is set |
| Connection.ProbeOfRelayUrl | internal/server/manager.go:194-215 | "ws://host:port/ws" probes host (localhost as 127.0.0.1) on the game port |
| Connection.ProbeWithoutPort | internal/server/manager.go:194-215 | "ws://host/ws" without a port probes the whole host on the game port |
| Connection.ProbeOfSecureUrl | internal/server/manager.go:194-215 | "wss://host:port/ws" probes "wss://host" on the game port: the scheme is not stripped |
| Connection.GetServerStatus | internal/server/manager.go:187-230 | the empty-address error, the wrapped ping error naming the address, or the six pong fields |
| Connection.WrapperConnection.constructor | internal/server/manager.go:88-101 | the configured fields and the initial state |
| Connection.WrapperConnection.SignalManager | internal/server/manager.go:486-490 | performs the signal step on the fields |
| Connection.WrapperConnection.Retry | internal/server/manager.go:135-154 | performs the retry step and returns its error |
| Connection.WrapperConnection.AddClient | internal/server/manager.go:157-161 | adds the client to the subscriber set; nothing else changes |
| Connection.WrapperConnection.RemoveClient | internal/server/manager.go:164-168 | removes the client from the subscriber set; nothing else changes |
| Connection.WrapperConnection.SendMessage | internal/server/manager.go:171-184 | performs the send step and returns its error |
| Connection.WrapperConnection.Dial | internal/server/manager.go:322-384 | performs one dial step and returns the backoff sleep |
| Connection.WrapperConnection.DialSucceeded | internal/server/manager.go:372-383 | the state after a successful dial |
| Connection.WrapperConnection.DialFailed | internal/server/manager.go:257-294 | the state and sleep after a failed dial |
| Connection.WrapperConnection.Manage | internal/server/manager.go:252-296 | the state, sleeps and dial count of the manage loop over the given outcomes |
| Connection.WrapperConnection.Receive | internal/server/manager.go:427-459 | performs the receive step and reaches exactly the clients whose write did not fail |
| Connection.WrapperConnection.ReadPumpExit | internal/server/manager.go:387-437 | performs the read-pump exit step |
| Connection.WrapperConnection.WriteNext | internal/server/manager.go:495-525 | performs the delivery step and returns the message written |
| Connection.WrapperConnection.WritePumpExit | internal/server/manager.go:466-519 | performs the write-pump exit step |
| Connection.WrapperConnection.DropUnsent | internal/server/manager.go:501-519 | the message the write pump had taken leaves the queue; a failed write records its error |
| Connection.WrapperConnection.Close | internal/server/manager.go:237-246 | performs the teardown step |
| Registry.CloseAll | internal/server/manager.go:237-248 | every connection of the map is closed once, by the teardown step |
| Registry.ConnectionManager.constructor | internal/server/manager.go:71-75 | an empty registry |
| Registry.ConnectionManager.Connect | internal/server/manager.go:78-109 | a duplicate ID gives "connection with ID <id> already exists" and no change; otherwise exactly one fresh connection, in the initial state with the given fields, is added under the ID; keeps the registry invariant |
| Registry.ConnectionManager.GetConnection | internal/server/manager.go:112-119 | found exactly when the ID is registered, and then the connection under it, whose ID it is |
| Registry.ConnectionManager.ListConnections | internal/server/manager.go:122-132 | one element per entry, exactly the registered connections, each once |
| Registry.ConnectionManager.DisconnectAll | internal/server/manager.go:233-249 | every registered connection has been torn down once and the registry is empty |
| Central.RouteOf | internal/server/central.go:45-55 | the four exact patterns map to their routes, and every other path goes to the file server |
| Central.Dispatch | internal/server/central.go:45-55 | file server exactly for unregistered paths; a handler runs exactly for a registered path and an admitted request; otherwise the gate's 401 |
| Central.FilesArePublic | internal/server/central.go:49 | static files are served whatever the credential |
| Central.NoKeyNoHandler | internal/server/central.go:52-55 | a request with no credential reaches no protected handler |
| Central.Precheck | internal/server/central.go:83-99 | 405, then 400 "Wrapper ID is required", then 404 "Wrapper not found", in that order; no refusal exactly when all three pass |
| Central.MethodCheckedFirst | internal/server/central.go:111-115 | a wrong method is refused before the ID is looked at |
| Central.RelayOne | internal/server/central.go:183-197 | while not connected, the status reply; otherwise the send step, with "Error sending command: ..." on refusal; each frame is queued or answered, exactly one of the two |
| Central.RelayAccounts | internal/server/central.go:173-198 | over the whole loop, replies plus newly queued frames equal the frames; the queue only grows; nothing else changes |
| Central.RelayWhileDown | internal/server/central.go:183-188 | while the wrapper is down every frame gets the status reply and nothing is queued |
| Central.RelayWithRoom | internal/server/central.go:190-197 | with room, the frames are queued in order and nothing is answered |
| Central.ForwardFrame | internal/server/central.go:183-197 | one pass of the read loop performs the relay step |
| Central.Forward | internal/server/central.go:173-198 | the read loop performs the relay over all frames |
| Central.Subscribe | internal/server/central.go:157-170 | the socket is subscribed for the loop and unsubscribed after it; `done` and the connection invariant are kept |
| Central.CentralServer.constructor | internal/server/central.go:31-42 | the given registry and secret, no browser sockets |
| Central.CentralServer.HandleWrappers | internal/server/central.go:72-80 | 405 for a non-GET; otherwise the list of exactly the registered connections |
| Central.CentralServer.HandleServerStatus | internal/server/central.go:83-108 | the precheck refusal, or the status of the named wrapper as JSON, or its error as 500 |
| Central.CentralServer.HandleRetry | internal/server/central.go:111-136 | the precheck refusal with nothing changed, or the named connection's retry step, with 200 on success and 500 with its message otherwise; other connections unchanged |
| Central.CentralServer.HandleWebSocket | internal/server/central.go:139-199 | refusals before the upgrade change nothing; after it the socket is subscribed, the frames are relayed, and the socket is removed again from both client sets; other connections unchanged |
| History.Last | internal/server/server.go:96-100 | the last n elements of the stream, of length min(length, n) |
| History.DropOldest | cmd/msw/main.go:32-35 | drops the first element exactly when over the bound |
| History.LastOfAppend | internal/server/server.go:95-100 | appending to the history then trimming equals the history of the extended stream |
| History.DropOldestIsLast | cmd/msw/main.go:32-35 | within one element of the bound, dropping the first element is the history |
| History.DropOldestOfAppend | cmd/msw/main.go:28-36 | the drop-one rule after every append keeps exactly the history of the stream |
| History.DropOldestAppend | cmd/msw/main.go:28-36 | below capacity every line is kept and the new one goes last; at capacity the oldest goes; the bound holds |
| Msw.OutputBuffer.constructor | cmd/msw/main.go:21-26 | an empty buffer with the given capacity |
| Msw.OutputBuffer.Append | cmd/msw/main.go:28-36 | the line is appended, the oldest dropped when over capacity; the buffer is always the last maxLen lines appended |
| Msw.OutputBuffer.GetLines | cmd/msw/main.go:38-45 | the current lines, which are the last maxLen lines appended |
| Msw.Classify | cmd/msw/main.go:164-168 | `stderr` exactly for lines starting with "[ERR]" |
| Msw.StderrLine | cmd/msw/main.go:244 | a stderr line is stored as "[ERR] " + text |
| Msw.StderrLinesAreStderr | cmd/msw/main.go:242-247 | every line from the stderr scanner is rendered as an error |
| Msw.RenderOutput | cmd/msw/main.go:160-171 | one classified entry per buffered line, in order |
| Msw.HandleInput | cmd/msw/main.go:173-187 | 405 for a non-POST, 400 for a bad form; a non-empty command is forwarded with 200 while the forwarder runs, and hangs unanswered once it has returned; an empty one gets 200 |
| Msw.StoppedForwarderHangs | cmd/msw/main.go:184 | after the forwarder has returned, a non-empty command never gets an answer, while an empty one still gets 200 |
| Msw.StdinLine | cmd/msw/main.go:265 | the input followed by one newline |
| Msw.ForwardInputs | cmd/msw/main.go:263-272 | the newline-terminated inputs in order, up to the first failed write; the forwarder keeps receiving exactly when no write failed |
| SingleServer.Server.constructor | internal/server/server.go:30-40 | no lines and no sockets |
| SingleServer.Server.HandleRunnerLine | internal/server/server.go:93-112 | the buffer is the last 1000 lines received; the line reaches exactly the sockets whose write succeeds, and the failing ones are dropped |
| SingleServer.Server.Broadcast | internal/server/server.go:104-112 | delivered to and kept exactly the sockets not in the failing set |
| SingleServer.Server.HandleRunnerOutput | internal/server/server.go:92-114 | after a run of lines the buffer is their last 1000, within the bound; the sockets are those that never failed |
| SingleServer.Server.HandleWebSocket | internal/server/server.go:51-90 | a failed upgrade changes nothing; otherwise the buffer is replayed in order up to the first failed write, after which nothing is forwarded; a full replay forwards every inbound message unchanged; the socket is deregistered at the end |

## Left out

- Goroutines and locks. Each goroutine step and each caller method is
  one atomic step; interleavings inside a step are not modelled.
- A deadlock in the source is not modelled. When a client write fails,
  the read pump calls `RemoveClient` while it holds the read lock on the
  clients map (manager.go:447-457), and `RemoveClient` asks for the
  write lock (manager.go:165). The model deletes failed clients after
  the broadcast.
- A concurrent map write in the source is not modelled. server.go
  deletes from `connections` while it holds only the read lock
  (server.go:104-109). The model also removes the failed sockets after
  the loop.
- Time. Clock readings (`time.Now`) are opaque `nat` parameters.
  Deadlines, the 54-second ping ticker and the sleeps are not modelled,
  except the sleep lengths `manage` asks for.
- The network is replaced by outcome parameters:
  - WebSocket dial: `DialOutcome`;
  - RakNet ping: `PingOutcome`;
  - upgrade: `upgradeOk`;
  - read: the frames or lines received;
  - write: the failing sockets or `failAt`.
- The environment variable CFG_SERVER_PORT is the `portOverride`
  parameter.
- JSON encoding, base64 Basic credentials, HTML templates and
  `HTMLEscapeString` are not modelled.
- http.Error's trailing newline is not part of the modelled message.
- ServeMux path cleaning and redirects are outside the model. `RouteOf` matches paths exactly.
- Go's random choice in `select` and the unspecified iteration order of
  a Go map are modelled as follows:
  - SendMessage's choice when the queue has room and `done` is closed
    comes from the `closedWins` parameter;
  - map iteration takes elements in an arbitrary order (`Pick`).
- The channels are modelled as follows:
  - `recvChan` is created but never used, so it has no counterpart;
  - `sendChan` is never closed, so the write pump's closed-channel exit
    is the `Stopped` cause.
- Raknet.ParsePong: the source indexes fields 0 to 11 without a check,
  and panics on a pong with fewer than 12 fields. The model requires at
  least 12, and so do GetPong and GetServerStatus.
- Raknet.Atoi: Go's `int` is taken to be 64 bits.
- Connection.Stats: the counters are unbounded `nat`s, while the source
  has `MessagesSent` and `MessagesReceived` as int64 and `Reconnections`
  as int (internal/server/manager.go:36-38). Counter overflow is not
  modelled.
- Msw.OutputBuffer.constructor: a negative capacity makes `make` panic;
  the model requires a non-negative one.
- Connection.SendAll: its own contract only fixes the number of answers;
  what the answers are is stated by SendAllFills.
- Connection.RunDials: its own contract only bounds the dial count; the
  values are stated by BackoffFrom, BackoffFromFresh and the Manage
  method.
- Central.CentralServer.HandleWebSocket: the source reads the wrapper's
  status between frames, while other goroutines may change it. The
  model relays the frames against the state left by the previous frame.
- Registry.ConnectionManager.DisconnectAll: the source deletes each
  entry as it closes it. The model closes every entry, then empties the
  map. The result is the same.
- Process management in `cmd/msw/main.go`: starting `bedrock_server`,
  the pipes and `cmd.Wait`. Also the terminal stdin reader, which feeds
  lines into the same forwarder unfiltered (ForwardInputs models the
  forwarder).
- `Start`, `Stop` and listening on ports. The other binaries
  (`cmd/minecraft-server-center`, `cmd/minecraft-server-wrapper` and
  `cmd/test-app`) are not part of this model.
- Logging with `fmt.Printf`.

## Where the code and its description differ

This model follows the code in each of these places.

- A 401 on a dial makes `manage` return
  (internal/server/manager.go:261-263). The connection is not left waiting
  for a retry. Every later Retry is answered "retry already in progress"
  (Connection.AuthFailureIsFinal).
- `Reconnections` counts only successful dials
  (internal/server/manager.go:376), including the first one. Failed
  attempts are not counted.
- The read pump's deferred cleanup always sets the status to
  `disconnected`. That overwrites the `error` status a read failure had
  just set (internal/server/manager.go:389). The error text remains.
  The write pump's cleanup does so only when there is no socket or the
  close frame is sent. When the close frame fails, it returns before
  touching the status (internal/server/manager.go:472-477;
  Connection.WritePumpExitStep).
- The status probe strips only a "ws://" prefix
  (internal/server/manager.go:195). A "wss://host:port/ws" address
  yields the host "wss://host" (Connection.ProbeOfSecureUrl).
- Paths under /api/ other than the four registered ones go to the static
  file server (internal/server/central.go:49). They are not answered
  401 by the gate.
