# easytrans peer transfer: a Dafny model

easytrans lets two browsers exchange chat lines and files directly over a
WebRTC data channel. A small Go relay brings them together. Each browser logs
in over a WebSocket and gets a short friendly UID. Users address each other by
UID, and the relay forwards the `offer`, `answer` and `ice-candidate`
envelopes between them.

This project models four parts and proves properties about them:

- **`Signals`** (`signals.dfy`) holds the shared values. These are the JSON
  envelope `{type, from, to, data, error}` and the shapes of its `data`
  member that the programs inspect.
- **`SignalingLink`** (`signaling_link.dfy`) is the browser's relay link,
  from `fe/hooks/useWebSocket.ts`. Class `Link` covers:
  - one socket at a time;
  - the `ready` → `login` → `login_success` handshake that obtains and stores
    the UID;
  - reconnection with exponential backoff, capped at five attempts.
- **`Transfer`** and **`PeerSession`** (`transfer.dfy`, `peer_session.dfy`)
  model the peer session of `fe/src/hooks/useWebRTC.ts`.
  - `Transfer` holds the file protocol as functions:
    - cutting a file into 16384-byte slices;
    - the `file-start` / `file-chunk` + binary / `file-end` frame sequence;
    - the receiver handlers, folded over the frames they are given.
  - Class `Session` holds the state the hook mutates:
    - the consent gate on inbound offers;
    - the peer connection and data channel;
    - the shared buffer of early ICE candidates;
    - the chat, the transfer list and the table of incoming files.
  - The session's methods are proved against `Transfer`'s functions.
- **`RelayHub`** (`relay_hub.dfy`) is the relay of `be/main.go`. It covers:
  - friendly UID generation;
  - the two registry tables, by connection ID and by UID, and their
    register/unregister transitions;
  - the login of a new connection;
  - routing over bounded per-connection `Send` queues.
- **`I18n`** (`i18n.dfy`) is `fe/src/i18n/translations.ts`:
  - the browser-locale choice;
  - single-pass `{key}` substitution;
  - the connection prompt that names the offering peer.

Browser and network objects are reduced to what the code does with them:
- A peer connection records its descriptions, the candidates applied to it and
  whether it was closed.
- A data channel records its owner and `readyState`.
- A socket records its `readyState`.
- Frames sent, signalling messages and `close()` calls are appended to logs.
- A timer is an id with a delay.

Events (socket and channel callbacks, timer expiry, a user's click) are
methods that the environment calls. Values the environment supplies are method
parameters:
- the SDP an `await createOffer()` produces;
- the close code;
- whether `new WebSocket` throws;
- the transfer id from `Date.now()`.

## Model

| member | source | states |
|---|---|---|
| I18n.PreferredLanguage | fe/src/i18n/translations.ts:506 | the language used is never empty: `navigator.language` when non-empty, else the first of `navigator.languages` when non-empty, else "en" |
| I18n.BrowserLanguage | fe/src/i18n/translations.ts:505-512 | the result is always a table locale; it is not "en" only when it is one of zh/es/ru and a prefix of the language; whenever one of those is a prefix, the result is that one |
| I18n.MatchAt | fe/src/i18n/translations.ts:515 | a non-zero match length spans a whole `{word}` token at the head of the text |
| I18n.MatchAtFindsToken | fe/src/i18n/translations.ts:515 | whenever the text starts with a `{word}` token, the regular expression matches exactly that token |
| I18n.Substitute | fe/src/i18n/translations.ts:516 | definition: the replacement callback gives the parameter when it is present and non-empty, the matched token otherwise |
| I18n.Format | fe/src/i18n/translations.ts:514-518 | definition: one left-to-right pass; a `{word}` token at the head is replaced by `Substitute` and skipped, otherwise one character is copied |
| I18n.FormatWithoutParams | fe/src/i18n/translations.ts:514-518 | formatting with no parameters returns the text unchanged |
| I18n.FormatWithoutPlaceholders | fe/src/i18n/translations.ts:514-518 | a text with no `{word}` token comes back unchanged whatever the parameters |
| I18n.FormatLiteralPrefix | fe/src/i18n/translations.ts:514-518 | text before the first `{` is copied verbatim |
| I18n.FormatReplacesToken | fe/src/i18n/translations.ts:514-518 | a token is replaced by a non-empty parameter, kept when the parameter is missing or empty, and scanning resumes after it |
| I18n.SubstitutionIsNotRescanned | fe/src/i18n/translations.ts:515-517 | a substituted value that itself looks like a token is left literally: one pass only |
| I18n.FormatKeepsNonTokenBraces | fe/src/i18n/translations.ts:515 | braces around an empty or non-word run (`{}`, `{a-b}`) are kept as they are |
| I18n.OfferConfirmParts | fe/src/i18n/translations.ts:185 | each locale's offer prompt has no brace before its `{from}` token |
| I18n.OfferPromptNamesPeer | fe/src/i18n/translations.ts:185 | in every locale the formatted connection prompt contains the offering peer's id |
| Transfer.TotalChunks | fe/src/hooks/useWebRTC.ts:392 | `ceil(size / 16384)`: enough chunks to cover the size, and one fewer would not be |
| Transfer.Chunks | fe/src/hooks/useWebRTC.ts:456-459 | definition: the slices the reader reads, 16384 bytes each from offset 0, the last one shorter, and one empty slice for an empty file |
| Transfer.ChunkCount | fe/src/hooks/useWebRTC.ts:456-500 | the sender reads `max(1, ceil(size/16384))` slices; an empty file still sends one empty slice |
| Transfer.ChunkAt | fe/src/hooks/useWebRTC.ts:456-459 | slice `i` is bytes `[i*16384, min(i*16384+16384, size))` |
| Transfer.ChunksReassemble | fe/src/hooks/useWebRTC.ts:456-500 | the slices joined in order give back the whole file |
| Transfer.ConcatLength | fe/src/hooks/useWebRTC.ts:145 | the combined buffer's length is the sum of the chunk lengths |
| Transfer.FileFramesLayout | fe/src/hooks/useWebRTC.ts:414-468 | frame order of one transfer: `file-start` with size and chunk count, then each slice's `file-chunk` immediately followed by that slice as a binary frame, in index order, then `file-end` |
| Transfer.FileFramesAt | fe/src/hooks/useWebRTC.ts:428-459 | the frames at positions `1+2i` and `2+2i` are slice `i`'s `file-chunk` and its bytes |
| Transfer.FileFrames | fe/src/hooks/useWebRTC.ts:413-500 | definition: every frame one `sendFile` sends: `file-start`, each slice's `file-chunk` followed by its bytes, then `file-end` |
| Transfer.FrameFile | fe/src/hooks/useWebRTC.ts:413-500 | the reader loop emits exactly `FileFrames`, and its progress updates are overwritten by the final completion |
| Transfer.Find | fe/src/hooks/useWebRTC.ts:139 | the position found holds the id, and no earlier position does |
| Transfer.WithSentAbsorbsProgress | fe/src/hooks/useWebRTC.ts:445-478 | the sender's intermediate progress updates do not survive its final completion update |
| Transfer.WithSentFreshLast | fe/src/hooks/useWebRTC.ts:470-480 | completing a freshly appended record changes only that record, to `completed` at 100 % |
| Transfer.StartReceive | fe/src/hooks/useWebRTC.ts:69-94 | definition: `file-start` puts a fresh entry (no chunks, counter 0) under the id and appends a `receiving` record at 0 % |
| Transfer.ChunkInfo | fe/src/hooks/useWebRTC.ts:96-113 | definition: `file-chunk` sets the progress of the records with that id to the chunk-index ratio |
| Transfer.ChunkData | fe/src/hooks/useWebRTC.ts:115-135 | definition: a binary frame is appended to the first incoming entry, its counter grows by the frame's length and its record's progress follows; nothing happens with no entry |
| Transfer.FinishReceive | fe/src/hooks/useWebRTC.ts:137-183 | definition: `file-end` for a known id completes its record with the chunks joined in order, adds the received-file chat line and deletes the entry; an unknown id changes nothing |
| Transfer.Deliver | fe/src/hooks/useWebRTC.ts:202-235 | definition: the channel's dispatch: text becomes a peer chat line, the three file frames and binary frames go to their handlers, any other frame is ignored |
| Transfer.DeliverAll | fe/src/hooks/useWebRTC.ts:202-235 | definition: frames delivered one after another, in arrival order |
| Transfer.DeliverAllAppend | fe/src/hooks/useWebRTC.ts:202-235 | handling frames `a + b` equals handling `a`, then `b` |
| Transfer.DeliverKeepsSizes | fe/src/hooks/useWebRTC.ts:69-183 | every handler keeps each incoming entry's byte counter equal to the bytes it holds |
| Transfer.ChunkGoesToFirstEntry | fe/src/hooks/useWebRTC.ts:115-135 | a binary frame announced for the second incoming file is appended to the first one instead |
| Transfer.WithProgressFreshLast | fe/src/hooks/useWebRTC.ts:104-111 | a progress update by id changes only the record with that id |
| Transfer.WithCompletedFreshLast | fe/src/hooks/useWebRTC.ts:156-166 | completion by id changes only the record with that id, to `completed` at 100 % with its data |
| Transfer.PairsReceived | fe/src/hooks/useWebRTC.ts:96-135 | after `k` chunk pairs the single entry holds exactly the first `k` slices and the right counter |
| Transfer.FileRoundTrip | fe/src/hooks/useWebRTC.ts:69-183 | a receiver with no file in progress that gets one `sendFile`'s frames ends with no entry, one new `completed` record at 100 % whose data is exactly the file, and one chat line |
| Transfer.Combine | fe/src/hooks/useWebRTC.ts:145-153 | the array-copy loop produces the chunks' concatenation |
| Transfer.ConcatPrefixLength | fe/src/hooks/useWebRTC.ts:145-153 | the copy offset never passes the total size |
| PeerSession.AtMostOneLive | fe/src/hooks/useWebRTC.ts:336-341 | at most one peer connection is live, and it is the current one |
| PeerSession.ReplaceKeepsPeers | fe/src/hooks/useWebRTC.ts:536-540 | closing the current connection and making a new one current keeps the peer invariant |
| PeerSession.ClosePeerKeepsPeers | fe/src/hooks/useWebRTC.ts:511-514 | closing and forgetting the current connection keeps the peer invariant |
| PeerSession.Session.constructor | fe/src/hooks/useWebRTC.ts:44-63 | initial state: nothing pending, no connection, empty lists |
| PeerSession.Session.ReplacePeerConnection | fe/src/hooks/useWebRTC.ts:336-341 | the old connection and its channels are closed; a fresh connection becomes current |
| PeerSession.Session.Connect | fe/src/hooks/useWebRTC.ts:324-364 | a blank target changes nothing; otherwise the target is recorded, the old connection closed, a new connection and channel made current, and exactly one offer sent to the target |
| PeerSession.Session.FlushCandidates | fe/src/hooks/useWebRTC.ts:547-551 | every buffered candidate is applied in buffer order, then the buffer is empty |
| PeerSession.Session.OnOffer | fe/src/hooks/useWebRTC.ts:597-607 | an inbound offer only becomes the pending offer and raises the prompt; no connection is touched |
| PeerSession.Session.OnAnswer | fe/src/hooks/useWebRTC.ts:609-624 | without a connection nothing; otherwise the answer becomes the remote description and the buffer is flushed |
| PeerSession.Session.OnIceCandidate | fe/src/hooks/useWebRTC.ts:626-641 | dropped without a connection, applied with a remote description, buffered otherwise |
| PeerSession.Session.OnSignal | fe/src/hooks/useWebRTC.ts:589-651 | an offer only becomes pending (candidates and connected state untouched); an answer and a candidate have exactly the effects of `OnAnswer` and `OnIceCandidate`; other types change nothing |
| PeerSession.Session.ConfirmOffer | fe/src/hooks/useWebRTC.ts:521-566 | nothing without a pending offer; otherwise the prompt is cleared, a new connection takes the offer and the buffered candidates in order, and one answer goes to the offerer |
| PeerSession.Session.RejectOffer | fe/src/hooks/useWebRTC.ts:569-586 | nothing without a pending offer; otherwise the prompt is cleared and exactly one `offer-rejected` with its reason goes to the offerer, with no connection touched |
| PeerSession.Session.Disconnect | fe/src/hooks/useWebRTC.ts:505-518 | channel and connection closed and forgotten, target and connected state cleared, candidate buffer kept |
| PeerSession.Session.SendMessage | fe/src/hooks/useWebRTC.ts:366-386 | on an open channel one text frame and one own chat line; otherwise nothing |
| PeerSession.Session.SendFile | fe/src/hooks/useWebRTC.ts:388-503 | on an open channel the frames sent are exactly `FileFrames` of the file, the record ends `completed` at 100 %, and one chat line announces it; otherwise nothing |
| PeerSession.Session.HandleFileStart | fe/src/hooks/useWebRTC.ts:69-94 | the receiver state becomes `StartReceive` of the old one |
| PeerSession.Session.HandleFileChunkInfo | fe/src/hooks/useWebRTC.ts:96-113 | the receiver state becomes `ChunkInfo` of the old one |
| PeerSession.Session.HandleFileChunk | fe/src/hooks/useWebRTC.ts:115-135 | the entry loop that stops after the first entry yields `ChunkData` of the old state |
| PeerSession.Session.HandleFileEnd | fe/src/hooks/useWebRTC.ts:137-183 | the receiver state becomes `FinishReceive` of the old one, with the combined buffer built by the copy loop |
| PeerSession.Session.OnChannelMessage | fe/src/hooks/useWebRTC.ts:202-235 | every frame updates the receiver state as `Deliver` says, so frame sequences follow `DeliverAll` and `FileRoundTrip` |
| PeerSession.Session.OnChannelOpen | fe/src/hooks/useWebRTC.ts:186-193 | connected, and the target (when set) becomes the connected peer |
| PeerSession.Session.OnChannelClose | fe/src/hooks/useWebRTC.ts:195-200 | any channel not yet closed, including one that never opened, closes and leaves the session disconnected with no connected peer |
| PeerSession.Session.OnLocalCandidate | fe/src/hooks/useWebRTC.ts:273-290 | a local candidate goes to the target when there is one; the end-of-candidates event sends nothing |
| PeerSession.Session.OnConnectionStateChange | fe/src/hooks/useWebRTC.ts:311-314 | the connected flag follows the connection state |
| PeerSession.Session.OnDataChannel | fe/src/hooks/useWebRTC.ts:316-319 | the remote peer's channel is set up and becomes current |
| SignalingLink.RetryDelay | fe/hooks/useWebSocket.ts:132 | every delay lies between one and thirty seconds |
| SignalingLink.RetryStep | fe/hooks/useWebSocket.ts:126-132 | definition: a retry is due exactly when the disconnect was not manual, the code is not 1000 and fewer than five attempts were made; the count is then incremented and the delay taken from the new count |
| SignalingLink.RetryDelayValues | fe/hooks/useWebSocket.ts:126-139 | attempts 1-5 wait 1, 2, 4, 8, 16 s, each double the previous; beyond five the cap would apply |
| SignalingLink.BackoffSchedule | fe/hooks/useWebSocket.ts:126-139 | abnormal closes in a row schedule the remaining delays of 1, 2, 4, 8, 16 s in order and then nothing; the count stops at 5 |
| SignalingLink.Link.constructor | fe/hooks/useWebSocket.ts:23-36 | no socket, no timer, no attempts, the saved UID loaded |
| SignalingLink.Link.SendMessage | fe/hooks/useWebSocket.ts:38-42 | sent on the current socket exactly when it is open, dropped otherwise |
| SignalingLink.Link.ClearReconnectTimeout | fe/hooks/useWebSocket.ts:44-49 | the pending timer is cancelled and forgotten |
| SignalingLink.Link.MaybeScheduleRetry | fe/hooks/useWebSocket.ts:126-139 | a retry is scheduled exactly as `RetryStep` decides, with the incremented count's delay |
| SignalingLink.Link.Connect | fe/hooks/useWebSocket.ts:51-171 | nothing while connecting; otherwise the old socket is closed, the pending timer removed from the timer table and a new socket made current; a creation failure is handled like an abnormal close, scheduling the next timer under a new id |
| SignalingLink.Link.OnOpen | fe/hooks/useWebSocket.ts:73-80 | attempts and the manual flag reset, not yet connected |
| SignalingLink.Link.OnMessage | fe/hooks/useWebSocket.ts:82-112 | `ready` answers with exactly one `login` carrying the stored UID; `login_success` stores the UID and only then marks the link connected |
| SignalingLink.Link.OnClose | fe/hooks/useWebSocket.ts:114-145 | disconnected, the socket marked closed and forgotten if current, and a retry scheduled as `RetryStep` decides for the close code, with its new timer id |
| SignalingLink.Link.OnError | fe/hooks/useWebSocket.ts:147-150 | only the connecting flag is cleared |
| SignalingLink.Link.FireTimer | fe/hooks/useWebSocket.ts:135-139 | a fired timer leaves the table and, unless the user disconnected by hand or a connect is in flight, runs `connect`: the old socket closed and forgotten, the pending timer cancelled, then a new current connecting socket, or the next retry when creation fails |
| SignalingLink.Link.Disconnect | fe/hooks/useWebSocket.ts:173-185 | marked manual, timer cancelled, socket closed with code 1000 and forgotten |
| SignalingLink.Link.Reconnect | fe/hooks/useWebSocket.ts:188-193 | the count and manual flag are reset and `connect` runs with its full outcome: blocked while a connect is in flight; otherwise the old socket closed, the pending timer cancelled, and a new connecting socket, or, when creation fails, attempt 1 scheduled with the base delay of one second |
| RelayHub.FriendlyUidAvoidsConfusables | be/main.go:51-63 | a generated UID never contains I, O, 0 or 1 |
| RelayHub.GenerateFriendlyUid | be/main.go:51-63 | six characters, each from the friendly alphabet |
| RelayHub.Hub.GenerateUniqueUid | be/main.go:66-81 | a returned UID is friendly and not in use |
| RelayHub.Registered | be/main.go:96-114 | definition: a prior connection with the same UID loses its ID entry, then the new client is filed under its ID and its UID |
| RelayHub.Unregistered | be/main.go:116-126 | definition: both entries are deleted only when the connection ID is still filed; otherwise the tables are unchanged |
| RelayHub.RegisterKeepsConsistent | be/main.go:96-114 | registering keeps both tables describing the same clients; both keys lead to the new client, a replaced connection is gone, other users stay |
| RelayHub.UnregisterKeepsConsistent | be/main.go:116-126 | unregistering keeps both tables consistent |
| RelayHub.UnregisterReplacedIsNoop | be/main.go:96-126 | the late unregister of a replaced connection does not remove the user's new connection |
| RelayHub.RegisterThenUnregister | be/main.go:96-126 | registering a new user and unregistering that connection restores the tables |
| RelayHub.TrySend | be/main.go:367-371 | a non-blocking send appends to one queue exactly when it is below 256, and touches no other |
| RelayHub.ToUser | be/main.go:404-424 | definition: `sendToUser`: the UID is looked up among logged-in users and the envelope sent without blocking; an unknown UID changes nothing |
| RelayHub.ToClient | be/main.go:382-402 | definition: `sendToClient`: the key is looked up among connection IDs and the envelope sent without blocking; an unknown key changes nothing |
| RelayHub.Relayed | be/main.go:318-380 | definition: `relaySignaling`: no target drops the envelope; an unknown target sends "Target user not found" to the sender; otherwise the target gets the forwarded envelope or, when its queue is full, the sender gets "Failed to deliver message to target user" |
| RelayHub.RelayReachesTarget | be/main.go:318-380 | a deliverable relay appends one envelope, carrying type, sender, target and data, to the target user's connection and nowhere else |
| RelayHub.RelayFailureTellsSender | be/main.go:338-349 | an unknown target gives a logged-in sender one "Target user not found" error, and a full target queue gives one "Failed to deliver" error |
| RelayHub.RelayAppendsAtMostOne | be/main.go:318-424 | a relay never creates or drops a queue and appends at most one envelope to at most one queue |
| RelayHub.PongAsWritten | be/main.go:308-312 | definition: the `ping` branch as written: the pong is sent by `sendToClient` with the sender's UID as key |
| RelayHub.PongToSender | be/main.go:404-424 | definition: the `ping` branch as intended: the pong is sent by `sendToUser` to the sender's UID |
| RelayHub.PongLostAsWritten | be/main.go:308-312 | as written, a logged-in sender whose UID is not a connection ID gets no pong |
| RelayHub.PongLostExample | be/main.go:308-312 | a concrete sender gets no pong as written, and gets one when the lookup is by UID |
| RelayHub.PongReachesSender | be/main.go:404-424 | a pong sent by UID reaches exactly the sender's connection |
| RelayHub.Hub.constructor | be/main.go:83-91 | empty tables and queues |
| RelayHub.Hub.Accept | be/main.go:144-171 | a new connection gets an empty queue and one `ready` |
| RelayHub.Hub.Register | be/main.go:96-114 | the tables become `Registered` of the old ones; only the replaced connection's queue is closed, and it was open before |
| RelayHub.Hub.Unregister | be/main.go:116-126 | the tables become `Unregistered` of the old ones; an unknown connection changes nothing; a queue is never closed twice |
| RelayHub.Hub.SendToUser | be/main.go:404-424 | the queues become `ToUser`: the UID's connection, if any, gets the envelope unless full |
| RelayHub.Hub.SendToClient | be/main.go:382-402 | the queues become `ToClient`: lookup by connection ID |
| RelayHub.Hub.RelaySignaling | be/main.go:318-380 | the queues become `Relayed` of the old ones |
| RelayHub.Hub.HandleMessage | be/main.go:301-316 | signalling types are relayed, `ping` is answered to the sender's UID, everything else changes nothing |
| RelayHub.Hub.Receive | be/main.go:244-260 | every message is handled with `from` overwritten by the connection's own UID |
| RelayHub.Hub.Login | be/main.go:173-231 | a non-login first message registers nothing; a non-empty `data.uid` is kept and otherwise a fresh unused friendly UID is issued; the tables become `Registered`, a replaced connection of the same UID has its channel closed, the connection's queue holds exactly the `login_success` with the UID and the new-user flag, and no other queue or write changes |
| RelayHub.Hub.WriteOut | be/main.go:263-298 | a queue is written out in order, one envelope at a time |
| RelayHub.RequestedUid | be/main.go:201-209 | read from any data object with a string `uid`; a UID is taken from the login exactly when `data.uid` is a non-empty string, and it is that string |

## Findings

| source | as written | input that shows it | evidently intended | confidence | as-written member | corrected member |
|---|---|---|---|---|---|---|
| be/main.go:308-312 | `ping` answers with `sendToClient(msg.From, pong)`, but `msg.From` is the sender's UID and `sendToClient` looks it up among connection IDs | a client with connection ID "c1" logged in as "ABC234" sends `{type:"ping"}`: no queue changes | the pong goes to the sender's own connection, looked up by UID as `sendToUser` does | high; not executed | RelayHub.PongAsWritten (shown by RelayHub.PongLostAsWritten, RelayHub.PongLostExample) | RelayHub.PongToSender (proved by RelayHub.PongReachesSender; used by RelayHub.Hub.HandleMessage) |

## Left out

- Await interleavings: each event handler runs to completion as one step. `connect` and `confirmOffer` are modelled as if every `await` succeeds in order.
- Browser API rejections are not modelled: a failing `createOffer`, `setRemoteDescription` or `addIceCandidate`. Their `catch` blocks only log.
- Progress values are not floats. `Fraction(num, den)` stands for `num / den * 100`.
- `Date.now()` transfer ids and message timestamps are parameters.
- `formatMessage` parameters are strings. Number parameters and `toString` are not modelled, and neither are keys inherited from `Object.prototype`.
- The translation table is only modelled for the `offerConfirm.description` entries.
- The STUN server list, `restartIce`, and the ICE gathering, connection and candidate-error logging are not modelled.
- `fileTransferRef` is left out. `sendFile` sets it and deletes it, and nothing reads it.
- React effects that connect on mount, reconnect on URL change and clean up on unmount are not modelled. Neither is `FileReader` asynchrony: `SendFile` performs the whole read loop at once.
- The close codes and the failure of `new WebSocket` come from the environment as parameters.
- Closing a peer connection closes its data channels without firing their `onclose` handlers.
- A `login_success` whose data is not `{uid, isNewUser}` is not modelled. The source would then store `undefined`.
- Go concurrency is not modelled: goroutines, the mutex, the unbuffered register and unregister channels, and the races between a replaced connection's read loop and the new one.
- The `broadcast` channel, the `/debug/users` and `/health` endpoints, HTTP upgrade errors, read deadlines and the keep-alive pings are not modelled.
- Envelopes that fail to parse are not modelled. The read loop skips them without any state change.
- RelayHub.Hub.HandleMessage: the `ping` branch runs the corrected lookup by UID (`PongToSender`), not the lookup among connection IDs the code performs; the as-written behaviour is `PongAsWritten` (see "## Findings").
- RelayHub.Hub.GenerateUniqueUid: the unbounded retry loop is cut to `fuel` draws, and `None` stands for a loop that has not yet returned. `Login` then registers nothing.
- RelayHub.Hub.WriteOut: the writer's batching, its closing frame on a closed channel and the connection teardown are reduced to taking one queued envelope.
- PeerSession.Session.OnChannelMessage: JSON parsing is abstracted into the `Frame` datatype, so malformed text is `OtherFrame`.

In these places the model follows the code as written:
- `file-end` does not check that the received size equals the announced size.
- One candidate buffer is shared by all connections, and `disconnect` does not clear it.
- Binary chunks are appended to the first incoming file, whatever transfer was announced.
- The close of a socket that was already replaced still schedules a retry unless its code is 1000.
- An unknown message type is dropped silently by the relay.
