# Signaling layer of raspberrypi-webcasting, in Dafny

The system streams a Raspberry Pi camera to a recording server over WebRTC.
The two media endpoints never talk directly before the call is up: they
exchange their SDP offer and answer through a signaling layer, which this
project models and proves properties of.

- **The relay** (`WebSocketSignalingServer`) keeps a set of admitted
  connections and a replay buffer. Every message an admitted connection sends
  is buffered and forwarded to every other client. A late joiner is sent the
  buffer first. A leaving client empties the buffer. It comes in two
  variants:
  - the authenticating relay (module `AuthRelay`) challenges every new
    connection with a fresh 128-byte secret sealed with RSA-OAEP, and admits
    only a connection that echoes that secret;
  - the open relay (module `OpenRelay`) admits everyone.
- **The challenge gate** (module `Challenge`) models RSA-OAEP with SHA-256 and
  MGF1-SHA256 (RFC 8017, section 7.1; MGF1 in appendix B.2.1) symbolically.
  It also covers the relay's verdict on the reply.
- **The signaling channel** (module `Channel`) is the endpoint-side websocket
  wrapper: an optional socket and two replaceable handler slots. It either
  listens for connections or dials the relay. It answers the challenge when
  the relay demands one, and it keeps the ordering handshake → `on_connected`
  → message loop.
- **The offerer** (module `Offerer`, `WebRTCClient`) opens the camera, creates
  the offer and sends it only once ICE gathering is `complete`. Until then it
  re-arms itself on every gathering-state change. It applies the answer, and
  it closes the peer connection when the engine reports `failed`.
- **The answerer** (module `Answerer`, `WebRTCServer` and `FixedPtsTrack`)
  answers offers and records the tracks it receives. It starts and stops the
  recorder as the connection comes up and goes down. It restamps video frames
  with timestamps 0, 6122, 12244, …
- Module `Relay` holds what both relay variants share. The model is as
  follows:
  - Every frame a relay sends is appended to a per-connection outbox.
  - The replay invariant `ReplayConsistent` states that the latest frames in
    every admitted client's outbox are exactly the buffered messages of the
    other senders, in buffer order.
- Module `Session` holds the descriptions, engine states and collaborator
  calls that the endpoints record.
- Module `Scenarios` runs whole exchanges from freshly created objects.

Every websocket handler step is one atomic event. Each object records what it
asks of its collaborators (the engine, the camera, the recorder, the socket)
in an ordered event or call log, and the contracts speak about that log.

## Model

| member | source | states |
|---|---|---|
| Challenge.Encrypt | signaling_server/signaling_server.py:38-43 | sealing succeeds exactly when the message fits the modulus, with room for the two SHA-256 hashes and 2 bytes of OAEP padding |
| Challenge.Decrypt | general_classes/signaling.py:74-83 | decryption yields a plaintext exactly when the private key matches the sealing key; otherwise the OAEP decryption error |
| Challenge.DecryptInvertsEncrypt | general_classes/signaling.py:74-79 | decrypting with the matching private key gives back the sealed message |
| Challenge.WrongKeyCannotDecrypt | general_classes/signaling.py:80-83 | a non-matching private key cannot open the challenge |
| Challenge.SecretAlwaysSealable | signaling_server/signaling_server.py:33-43 | a 128-byte secret always fits a key of at least 194 bytes, so sealing the challenge cannot fail |
| Challenge.Check | signaling_server/signaling_server.py:47-56 | the reply admits exactly when it is the secret as bytes; the peer is gone exactly when no reply came |
| Challenge.HonestPeerAdmitted | signaling_server/signaling_server.py:38-58 | a peer holding the matching key decrypts the challenge, and its echo is admitted |
| Challenge.AlteredReplyRejected | signaling_server/signaling_server.py:53-56 | a reply differing from the secret in any byte is rejected |
| Relay.MessagesOfAt | signaling_server/signaling_server.py:66 | the i-th buffered message is the message of the i-th log entry |
| Relay.RelaysAt | signaling_server/signaling_server.py:61-62 | the i-th replayed frame relays the i-th buffered message |
| Relay.BroadcastAt | signaling_server/signaling_server.py:68-70 | a broadcast adds exactly one frame to each receiver's outbox and leaves every other outbox unchanged |
| Relay.BroadcastToNobody | signaling_server/signaling_server.py:69 | broadcasting to an empty receiver set changes nothing |
| Relay.BroadcastStep | signaling_server/signaling_server.py:70 | a broadcast to one more receiver is one more single-connection send |
| Relay.Fanout | signaling_server/signaling_server.py:70 | sending to receivers one at a time yields exactly the broadcast to that set |
| Relay.Forward | signaling_server/signaling_server.py:68-70 | the frame reaches exactly the clients other than the sender; with no other client nothing is sent |
| Relay.ReplayTo | signaling_server/signaling_server.py:61-62 | the joiner's outbox grows by one frame per buffered message, in buffer order; no other outbox changes |
| Relay.Welcome | signaling_server/signaling_server.py:61-62 | the joiner's outbox grows by exactly the buffer, in order, when the buffer is non-empty; with an empty buffer nothing is sent |
| Relay.MessagesOfAppend | signaling_server/signaling_server.py:66 | appending an entry to the log appends its message to the buffer |
| Relay.SendersAppend | signaling_server/signaling_server.py:65-66 | the senders of an extended log are the old senders plus the new one |
| Relay.DeliveriesOfAppend | signaling_server/signaling_server.py:65-70 | a new entry is owed to every connection except its sender |
| Relay.DeliveriesOfNonSender | signaling_server/signaling_server.py:58-62 | a connection that sent nothing in the log is owed the whole buffer, in order |
| Relay.SuffixExtend | signaling_server/signaling_server.py:70 | appending the same frame to both sequences keeps a suffix a suffix |
| Relay.BroadcastKeepsOwed | signaling_server/signaling_server.py:65-70 | after a message, each client is owed one more frame unless it is the sender |
| Relay.BroadcastKeepsReplay | signaling_server/signaling_server.py:65-70 | buffering a message and sending it to all other clients preserves the replay invariant |
| Relay.JoinKeepsReplay | signaling_server/signaling_server.py:59-62 | admitting a joiner and replaying the whole buffer to it preserves the replay invariant |
| Relay.OutsiderKeepsReplay | signaling_server/signaling_server.py:45-56 | frames sent to a connection outside the client set (the challenge) preserve the replay invariant |
| Relay.DropKeepsReplay | signaling_server/signaling_server.py:71-74 | removing a client and clearing the buffer preserves the replay invariant |
| Relay.JoinFreshKeepsReplay | signaling_server.py:27-30 | a connection never sent anything before joins with exactly the buffer as its frames, preserving the invariant |
| AuthRelay.IssueKeepsGate | signaling_server/signaling_server.py:33-45 | drawing a fresh secret for a new connection keeps one secret per attempt and nobody admitted without its echo |
| AuthRelay.IssueKeepsReplay | signaling_server/signaling_server.py:45 | sending the challenge to a connection that is not admitted keeps the replay invariant |
| AuthRelay.AdmitKeepsGate | signaling_server/signaling_server.py:53-59 | admitting a connection whose recorded answer is its own secret, as bytes, keeps the gate invariant |
| AuthRelay.RetireKeepsGate | signaling_server/signaling_server.py:47-56 | ending a handshake without admission keeps the gate invariant, whatever was answered |
| AuthRelay.AdmitKeepsReplay | signaling_server/signaling_server.py:59-62 | a joiner sent the whole buffer keeps the replay invariant |
| AuthRelay.MessageKeepsReplay | signaling_server/signaling_server.py:65-70 | buffering a message and forwarding it to all other clients keeps the buffer and the outboxes consistent |
| AuthRelay.LeaveKeepsReplay | signaling_server/signaling_server.py:71-74 | dropping a client with the whole buffer keeps the replay invariant |
| AuthRelay.SignalingServer.constructor | signaling_server/signaling_server.py:21-27 | no clients, empty buffer, nothing sent, nothing issued |
| AuthRelay.SignalingServer.Connect | signaling_server/signaling_server.py:29-45 | a fresh secret is issued; if it seals, the ciphertext is the connection's only frame and the handshake is pending; otherwise the connection is closed; nobody is admitted |
| AuthRelay.SignalingServer.SendChallenge | signaling_server/signaling_server.py:38-45 | the sealed secret is the first and only frame, and the handshake is pending |
| AuthRelay.SignalingServer.Abort | signaling_server/signaling_server.py:38-43 | sealing failed: nothing sent, the connection is closed, nobody admitted |
| AuthRelay.SignalingServer.NoSharedSecret | signaling_server/signaling_server.py:33 | no two connection attempts were ever given the same secret |
| AuthRelay.SignalingServer.Reply | signaling_server/signaling_server.py:47-62 | the connection joins the clients exactly when its reply is its own secret; the joiner is then sent the whole buffer in order; a wrong reply closes it; a vanished peer just goes; no broadcast either way |
| AuthRelay.SignalingServer.Admit | signaling_server/signaling_server.py:53-62 | only a connection whose reply equals its secret joins; it is sent every buffered message, in order |
| AuthRelay.SignalingServer.Refuse | signaling_server/signaling_server.py:53-56 | the connection is closed and never joins the clients |
| AuthRelay.SignalingServer.Forget | signaling_server/signaling_server.py:47-51 | the handshake is dropped; nothing is sent and nobody joins |
| AuthRelay.SignalingServer.Message | signaling_server/signaling_server.py:65-70 | the message is buffered, then sent to exactly the clients other than the sender |
| AuthRelay.SignalingServer.Leave | signaling_server/signaling_server.py:71-74 | the connection leaves the clients and the whole buffer is cleared, on every leave |
| AuthRelay.SignalingServer.Close | signaling_server/signaling_server.py:76-78 | every admitted connection is closed; with no clients nothing happens |
| OpenRelay.MessageKeepsReplay | signaling_server.py:33-38 | buffering a message and forwarding it keeps the replay invariant |
| OpenRelay.SignalingServer.constructor | signaling_server.py:17-23 | no clients, empty buffer, nothing sent |
| OpenRelay.SignalingServer.Connect | signaling_server.py:25-30 | every connection joins at once and is sent exactly the buffer, in order |
| OpenRelay.SignalingServer.Message | signaling_server.py:33-38 | the message is buffered, then sent to exactly the clients other than the sender |
| OpenRelay.SignalingServer.Leave | signaling_server.py:39-42 | the connection leaves the clients and the buffer is emptied |
| OpenRelay.SignalingServer.Close | signaling_server.py:44-46 | every client is closed; with no clients nothing happens |
| Channel.NoCallbacks | general_classes/signaling.py:50-56 | the handler-call count is zero exactly when no event of the log is a handler call |
| Channel.NoConnectedCalls | general_classes/signaling.py:50-51 | the connected-call count is zero exactly when no event of the log is a connected call |
| Channel.ConnectedAmongCallbacks | general_classes/signaling.py:50-56 | the connected handler is never called more often than handlers in general |
| Channel.CountsAppend | general_classes/signaling.py:50-56 | one more event adds one callback exactly when it is a handler call |
| Channel.Dispatch | general_classes/signaling.py:53-56 | an incoming message produces one handler call carrying it when a handler is registered, and nothing otherwise |
| Channel.Announce | general_classes/signaling.py:50-51 | a connection produces one connected call, with that socket and the socket current at that moment, when a handler is registered, and nothing otherwise |
| Channel.AnnounceCounts | general_classes/signaling.py:50-51 | announcing adds one callback, a connected one, exactly when a handler is registered |
| Channel.DispatchCounts | general_classes/signaling.py:53-56 | dispatching adds one callback, never a connected one, exactly when a handler is registered |
| Channel.DispatchKeepsHolds | general_classes/signaling.py:53-56 | handing a message to the message handler keeps both the listening and the dialing ordering |
| Channel.QuietKeepsHolds | general_classes/signaling.py:31-38 | a send or close on an existing connection calls no handler and keeps both the listening and the dialing ordering |
| Channel.AcceptKeepsListening | general_classes/signaling.py:48-52 | a listening channel calls the connected handler at most once per accepted connection |
| Channel.DialOpenKeepsDialing | signaling.py:64-68 | without authentication the handshake is empty, and the connected handler runs at most once, after it |
| Channel.AuthenticateKeepsDialing | general_classes/signaling.py:84-88 | the secret is the last event of the handshake, no callback precedes it, and the connected handler runs at most once |
| Channel.SignalingChannel.constructor | general_classes/signaling.py:20-23 | no socket, no handlers, nothing done |
| Channel.SignalingChannel.SetOnMessage | general_classes/signaling.py:25-26 | the message handler is replaced; nothing else changes |
| Channel.SignalingChannel.SetOnConnected | general_classes/signaling.py:28-29 | the connected handler is replaced; nothing else changes |
| Channel.SignalingChannel.SendData | general_classes/signaling.py:31-34 | the message goes out on the current socket exactly when that socket has not ended; with no socket nothing happens, and on an ended socket the send fails with the connection closed and nothing goes out |
| Channel.SignalingChannel.Transmit | general_classes/signaling.py:33-34 | on a live current socket exactly one message goes out, and the channel's ordering is kept |
| Channel.SignalingChannel.Close | general_classes/signaling.py:36-38 | the current socket is closed and has ended, or nothing happens while there is none |
| Channel.SignalingChannel.Accept | general_classes/signaling.py:48-52 | the connected handler runs with the new socket while the earlier socket (or none) is still current; only then does the new socket become current |
| Channel.SignalingChannel.ReceiveListening | general_classes/signaling.py:53-56 | a message from a live accepted connection reaches the handler if one is registered and is dropped otherwise |
| Channel.SignalingChannel.Disconnect | general_classes/signaling.py:48-56 | an accepted connection ends; it stays current if it was, so later sends on it fail |
| Channel.SignalingChannel.Dial | general_classes/signaling.py:66-68 | the dialed socket becomes current at once; with authentication the channel waits for the challenge; without it, the connected handler runs with that socket current and the loop opens |
| Channel.SignalingChannel.DialOpen | signaling.py:64-68 | the connected handler runs once, with the dialed socket already current, and the message loop opens |
| Channel.SignalingChannel.ReceiveChallenge | general_classes/signaling.py:72-88 | on a connection that has already ended, nothing goes back, no callback runs and the channel is finished; otherwise, if decryption fails, the socket is closed and the channel is finished, with no reply and no callback; otherwise the plaintext goes back, then the connected handler runs |
| Channel.SignalingChannel.Cut | general_classes/signaling.py:72-84 | the connection ended during the handshake: the channel is finished with no reply, no callback and no other change |
| Channel.SignalingChannel.Abandon | general_classes/signaling.py:80-83 | the socket is closed, has ended and stays current, and the channel is finished |
| Channel.SignalingChannel.Authenticate | general_classes/signaling.py:84-88 | on a live connection, the secret is sent back before the connected call, which sees the dialed socket current, and no callback ever precedes it |
| Channel.SignalingChannel.ReceiveDialing | general_classes/signaling.py:89-92 | a message reaches the handler if one is registered and is dropped otherwise |
| Channel.SignalingChannel.Hangup | general_classes/signaling.py:67 | the dialed connection ends but stays current, and nothing more is done |
| Session.NoSends | client.py:77-79 | the send count is zero exactly when no call of the log is a send |
| Session.SendsAppend | client.py:77-79 | sends of concatenated call logs add up |
| Session.Repeat | client.py:73-81 | n copies of one call |
| Session.SendsRepeat | client.py:77-79 | sending one description n times is n sends |
| Session.NoOpens | client.py:64-65 | the open count is zero exactly when no call of the log opens the camera |
| Session.OpensConcat | client.py:64-65 | camera openings of concatenated call logs add up |
| Session.CallsAppend | client.py:64-65 | one more call adds one opening or one send exactly when it is of that kind |
| Offerer.WebRTCClient.constructor | client.py:54-58 | no peer connection, channel or video source |
| Offerer.OpenKeepsCounted | client.py:64-65 | opening the camera when no source exists makes exactly one opening and sends nothing |
| Offerer.SetupKeepsCounted | client.py:64-69 | connection set-up opens the camera at most once in total and sends nothing |
| Offerer.WebRTCClient.Connect | client.py:60-71 | new peer connection; the camera is opened only if no source exists; its track is added; the offer becomes the local description; the channel exists |
| Offerer.WebRTCClient.SendOffer | client.py:73-81 | with gathering complete the local description is sent once; otherwise nothing is sent and one more callback is armed |
| Offerer.WebRTCClient.OnSignalingConnected | client.py:83-85 | the connected event starts one send_offer chain |
| Offerer.WebRTCClient.OnGatheringStateChange | client.py:73-81 | on complete, each armed chain sends the current local description exactly once, so the send count grows by the number armed, and none stays armed; otherwise each re-arms and nothing is sent |
| Offerer.WebRTCClient.FireComplete | client.py:75-79 | each armed callback sends the local description once; the send count grows by exactly the number armed |
| Offerer.WebRTCClient.FireIncomplete | client.py:80-81 | each armed callback re-arms itself; nothing is sent |
| Offerer.WebRTCClient.OnMessage | client.py:87-92 | only an answer is applied, as the remote description; anything else is ignored |
| Offerer.WebRTCClient.OnConnectionStateChange | client.py:94-98 | failed closes the peer connection; other states only update the state |
| Offerer.WebRTCClient.CloseConnection | client.py:114-118 | only with peer connection, video and channel all present: stop video, close peer, close channel, in that order |
| Offerer.WebRTCClient.VideoTrack | client.py:120-123 | the camera is opened at most once; afterwards the same source is reused |
| Answerer.FixedPtsTrack.constructor | server.py:22-25 | the first timestamp is 0 |
| Answerer.FixedPtsTrack.Recv | server.py:27-31 | the k-th frame (from 0) is stamped k·6122 and is otherwise unchanged |
| Answerer.Restamp | server.py:27-31 | frames come out unchanged apart from timestamps, which continue the track's count and grow by exactly 6122 per frame |
| Answerer.WebRTCServer.constructor | server.py:65-69 | no peer connection, channel, recorder or video |
| Answerer.WebRTCServer.Accept | server.py:71-82 | peer connection, listening channel and recorder are created |
| Answerer.WebRTCServer.OnMessage | server.py:84-94 | an offer becomes the remote description, then the answer the local one, then the local description is sent back; other messages are ignored |
| Answerer.WebRTCServer.OnConnectionStateChange | server.py:96-105 | failed closes the peer connection, connected starts the recorder, closed stops it; other states change nothing else |
| Answerer.WebRTCServer.OnTrack | server.py:107-114 | audio is recorded as is; video is kept and recorded restamped; other kinds are not recorded |
| Answerer.WebRTCServer.OnTrackEnded | server.py:116-119 | a track ending stops the recorder |
| Answerer.WebRTCServer.CloseConnection | server.py:121-124 | stops the recorder, closes the channel, closes the peer connection, in that order; before accept the first step fails and nothing is called |
| Answerer.WebRTCServer.VideoTrack | server.py:126-130 | None exactly when no video track has been received yet; otherwise a video track the peer sent |
| Scenarios.LateJoinerGetsBuffer | signaling_server.py:25-38 | a lone sender is sent nothing back; a later joiner is sent its message from the buffer |
| Scenarios.HonestDialerAdmitted | general_classes/signaling.py:66-88 | a dialer with the matching key decrypts the challenge frame the relay sent, echoes it, and the relay admits it |
| Scenarios.WrongKeyDialerRefused | general_classes/signaling.py:31-83 | a dialer with the wrong key only closes its socket; the relay, given no reply, never admits it; a later send on the dialer fails with the connection closed |
| Scenarios.ClosedDialerStaysSilent | general_classes/signaling.py:66-88 | a dialer that closed its own connection before the challenge only closes it: no secret goes back, the connected handler never runs, and the channel is finished |
| Scenarios.OfferWaitsForGathering | client.py:60-85 | the offer goes out exactly once, after gathering completes, carrying the local description at completion |

## Left out

- Transport and concurrency: the websockets library and the asyncio event loop (`asyncio.wait`, `create_task`, interleaving of handlers) are not modelled. Each handler step is one atomic event, so the race between `clients.add` and the replay is not captured.
- A failed send inside the fan-out is not modelled. The source swallows it (`asyncio.wait` does not raise), so it never removes a receiver.
- Buffer clearing follows the code: `prev_messages` is cleared on every leave, not only when the last client goes.
- Cryptography is symbolic: RSA-OAEP keeps only its length limit and the matching-key inverse. PEM key file reading becomes a key parameter of each call. `os.urandom` freshness is a precondition of `AuthRelay.SignalingServer.Connect`.
- JSON encoding and decoding are left out. A message is a `Description`. Malformed JSON and missing `sdp`/`type` keys (which raise in the source) are not modelled.
- Challenge frames: a text challenge frame, or a non-bytes reply before decryption, is not modelled on the dialing side; the relay side does model text replies (they are always rejected).
- The endpoints (`Offerer`, `Answerer`) record a `send_data` as a call and do not see its outcome. The `ConnectionClosed` that a send on an ended connection raises is modelled by `Channel.SignalingChannel.SendData`, but its propagation out of the endpoint's handler is not.
- The aiortc engine, camera, recorder and media relay are not modelled. They appear only as the events they report (gathering and connection states, tracks, descriptions) and as recorded calls.
- Offerer.WebRTCClient.Connect: requires that no peer connection exists yet. A second `connect` in the source would create a new peer connection and channel while leaving the old one running; that is not modelled.
- Answerer.FixedPtsTrack.Recv: timestamps are unbounded integers; the container's timestamp width is not modelled.
- `server.py`'s `WebSocketServer` has no `on_connected` slot. It is modelled by the listening role with no connected handler ever registered. `client.py`'s `WebSocketClient` calls `on_connected` without the socket; the model passes the socket anyway.
- webserver.py, web_server/webserver.py, users.py, logging_setting.py, stream.py, `main` and the configuration helpers are not part of this model (HTTP glue, static data, logging, capture and argument parsing).
