# CloudMeeting signaling core, modelled in Dafny

CloudMeeting is a small audio-meeting application: an Express + Socket.IO server and a Vue client
that sets up WebRTC audio between participants. This project models the two pieces of it that keep
live state in maps and edit them in place, and proves what those edits guarantee.

- `signaling.dfy` (module `Signaling`): the server's room registry, `rooms`, which maps a meeting
  key to a room, which maps each socket in it to the participant record `{id, name}` it joined with;
  and the Socket.IO handlers `join-room`, `leave-room`, `disconnect`, `offer` / `answer` /
  `ice-candidate` and `chat-message`. Class `Server` holds the registry and an append-only outbox of
  the emits the handlers make, each as (event, recipients, data), where the recipients are "the room
  except the sender", "the whole room", "the sender only" or "one socket (never the sender)". Each
  handler is proved against a function on the registry (`AfterJoin`, `AfterLeave`,
  `AfterDisconnect`), and the lemmas about those functions carry the properties: rooms are never
  stored empty, disconnect removes the socket everywhere and is idempotent, disconnect equals leaving
  every room the socket is in, join and leave undo each other, a rejoin replaces only the socket's
  own entry.
- `admission.dfy` (module `Admission`): the admission decisions of `POST /api/meetings` and
  `POST /api/meetings/:id/join` over a value model of the meeting store (the meetings and
  participants tables as sequences; a row's AUTOINCREMENT id is its index plus one, since the tables
  are recreated empty at start and never deleted from).
- `webrtc.dfy` (module `WebRTC`): the client's `useWebRTC` composable. Class `Session` holds
  `peerConnections` and `remoteAudioStreams` (maps keyed by remote socket id) and the local
  microphone stream; peer connections, streams and tracks are small classes standing for the
  browser's objects (a peer connection is its target, the local tracks it was given, what was applied
  to it and a `closed` flag). Its invariant: every stored connection is open and was made for the key
  it is stored under.
- `common.dfy` (module `Common`): identifiers, `Option`, and the `room-users` element shared by
  both sides.

The server lets one socket sit in several rooms at once: `join-room` never removes it from other
meetings, and `disconnect` walks every room. The model allows the same. `chat-message` is broadcast
to the whole room, sender included.

## Model

| member | source | states |
|---|---|---|
| `Signaling.Server.constructor` | server/src/app.js:130 | The registry starts with no rooms and an empty outbox, which satisfies the non-empty-rooms invariant. |
| `Signaling.AfterJoin` | server/src/app.js:136-138 | After a join, the socket's entry in the meeting's room is exactly the given `{id, name}`; the room is created if absent; other sockets' entries in that room and all other meetings' rooms are unchanged; no room becomes empty. |
| `Signaling.Server.ListUsers` | server/src/app.js:146-149 | The `room-users` list names every entry of the room exactly once, each as `{socketId, id, name}` with the stored id and name, and has the room's size. |
| `Signaling.Server.JoinRoom` | server/src/app.js:133-151 | The registry becomes `AfterJoin` of the old one; `user-joined` with the joiner's socket id, participant id and name goes to the room except the joiner, then `room-users` listing the whole new room, joiner included, goes to the joiner only; the invariant is kept. |
| `Signaling.Server.Relay` | server/src/app.js:153-163 | `offer`, `answer` and `ice-candidate` append exactly one emit, addressed to the target socket, carrying the payload unchanged and `from` set to the sender; the meeting key is ignored and `rooms` is not touched. |
| `Signaling.Server.Chat` | server/src/app.js:165-172 | `chat-message` appends one emit to the whole room, sender included, with sender name, content and the stored row's time; `rooms` is not touched. |
| `Signaling.AfterLeave` | server/src/app.js:176-182 | After a leave, the socket is gone from the meeting's room, the room is dropped exactly when nothing else was in it, an unknown meeting leaves the registry unchanged, other meetings are unchanged, and no room becomes empty. |
| `Signaling.Server.LeaveRoom` | server/src/app.js:174-184 | The registry becomes `AfterLeave` of the old one; `user-left` goes to the room except the sender whether or not a room existed; the invariant is kept. |
| `Signaling.AfterDisconnect` | server/src/app.js:187-195 | After a disconnect, no room holds the socket; rooms that did not hold it are untouched; a room that held it is dropped exactly when the socket was its only entry, and otherwise keeps every other entry; no room becomes empty. |
| `Signaling.Server.Disconnect` | server/src/app.js:186-196 | The loop over all rooms leaves the registry equal to `AfterDisconnect` of the old one and emits one `user-left` to the whole room of each meeting that held the socket, each such meeting exactly once; the invariant is kept. |
| `Signaling.LeaveIdempotent` | server/src/app.js:176-182 | A second `leave-room` of the same socket from the same meeting leaves the registry unchanged. |
| `Signaling.DisconnectIdempotent` | server/src/app.js:187-195 | A second `disconnect` of the same socket changes nothing. |
| `Signaling.JoinThenLeave` | server/src/app.js:136-182 | A socket that joins a meeting it was not in and then leaves it restores the registry exactly (when the registry keeps its invariant for that meeting). |
| `Signaling.RejoinReplaces` | server/src/app.js:136-138 | A repeated join by the same socket into the same meeting equals a single join with the latest record: only that socket's entry is replaced. |
| `Signaling.JoinCount` | server/src/app.js:136-138 | A join grows the meeting's room by one exactly when the socket was not already in it, and otherwise leaves its size unchanged. |
| `Signaling.DisconnectLeavesEveryRoom` | server/src/app.js:174-196 | `disconnect` has the same effect on the registry as `leave-room` from every room that holds the socket, taken in any order. |
| `Admission.CreateMeeting` | server/src/app.js:37-60 | A missing or empty title or host name is a 400 with the store unchanged; a meeting number already in use is a 500; otherwise a new meeting is stored under a fresh id as `waiting`, with an empty password stored as none, other meetings unchanged, and the host appended as a host participant. |
| `Admission.JoinMeeting` | server/src/app.js:94-123 | 404 exactly when no meeting has the id; 401 exactly when the meeting has a non-empty password different from the supplied one; otherwise a non-host participant is appended, the answer carries its new row id and the meeting number, the meeting's status becomes `ongoing` if it was `waiting` and is otherwise unchanged, and other meetings are unchanged; on an error the store is unchanged. |
| `Admission.CreatePreservesWellFormed` | server/src/app.js:44-45 | Creating a meeting keeps meeting numbers unique and every participant row pointing at an existing meeting. |
| `Admission.JoinPreservesWellFormed` | server/src/app.js:107-110 | Joining keeps meeting numbers unique and every participant row pointing at an existing meeting. |
| `Admission.CreateThenJoin` | server/src/app.js:40-110 | A freshly created meeting admits a joiner exactly when it was created without a password or the joiner supplies that password, and the first admitted join turns it `ongoing`. |
| `Admission.JoinSettlesStatus` | server/src/app.js:103-110 | After an accepted join the meeting is no longer `waiting`; a later join is admitted under the same password rule and leaves the status as it is. |
| `WebRTC.Session.constructor` | client/src/composables/useWebRTC.js:3-14 | Both maps start empty and there is no local stream; the table invariant holds. |
| `WebRTC.Session.InitLocalAudio` | client/src/composables/useWebRTC.js:21-35 | Returns what the microphone request produced (null when it failed); a granted stream becomes the local stream, and a failed request keeps the local stream held before. |
| `WebRTC.Session.Setup` | client/src/composables/useWebRTC.js:198-201 | Stores the socket object the client signals over and the meeting id; the socket's id is read from that object whenever it is needed, so a reconnect under a new id is seen. |
| `WebRTC.Session.CreatePeerConnection` | client/src/composables/useWebRTC.js:41-82 | Get-or-create: an existing connection for the target is returned with the map unchanged; otherwise exactly one new, open connection for the target, carrying the local stream's tracks, is added under the target; the table invariant is kept. |
| `WebRTC.Session.OnTrack` | client/src/composables/useWebRTC.js:67-70 | A received track event stores its first stream under the target id in `remoteAudioStreams` (null when the event has no stream), nothing else changes. |
| `WebRTC.Session.OnConnectionStateChange` | client/src/composables/useWebRTC.js:73-78 | A `failed` or `disconnected` state has the effect of `handleConnectionFailure` for the connection's target (only the dropped handle's `closed` flag changes among the connection objects); any other state changes nothing. |
| `WebRTC.Session.HandleConnectionFailure` | client/src/composables/useWebRTC.js:85-92 | Closes the stored connection for the id if there is one, and removes the id from both maps; its `closed` flag is the only field of any connection that changes; other keys unchanged; a no-op on the maps when the id is absent; the table invariant is kept. |
| `WebRTC.Session.CreateOffer` | client/src/composables/useWebRTC.js:95-108 | Gets or creates the connection for the target (existing entries unchanged, the target now present) and records that an offer was started for it. |
| `WebRTC.Session.HandleOffer` | client/src/composables/useWebRTC.js:111-125 | Creates a connection for the sender if missing (existing entries unchanged) and applies the offer as its remote description. |
| `WebRTC.Session.HandleAnswer` | client/src/composables/useWebRTC.js:128-137 | Never creates a connection: the map is unchanged; when a connection for the sender exists the answer becomes its remote description, and otherwise nothing happens. |
| `WebRTC.Session.HandleIceCandidate` | client/src/composables/useWebRTC.js:140-149 | Never creates a connection: the map is unchanged; when a connection for the sender exists the candidate is appended to it, and otherwise nothing happens. |
| `WebRTC.OfferTargets` | client/src/composables/useWebRTC.js:152-158 | A socket is an offer target exactly when some listed user has it as socket id and it is not the local socket's id; never more targets than users. |
| `WebRTC.Session.ConnectToAllPeers` | client/src/composables/useWebRTC.js:152-158 | Offers are started for exactly `OfferTargets(users, id)`, in list order, where `id` is the stored socket's id at the time of the call (none without a socket or while it is disconnected); the map gains exactly those keys and keeps every existing entry; the table invariant is kept. |
| `WebRTC.Session.HandleUserLeft` | client/src/composables/useWebRTC.js:169-176 | Same effect as `handleConnectionFailure`: the stored connection for the id is closed (no other field of it changes) and the id is removed from both maps, other keys unchanged, a no-op when absent. |
| `WebRTC.Session.UpdateLocalAudioTrack` | client/src/composables/useWebRTC.js:179-185 | Every audio track of the local stream gets the given `enabled`, other tracks keep theirs, no track's `stopped` flag changes, and afterwards `isMuted` answers the negation of it whenever there is an audio track. |
| `WebRTC.Session.Cleanup` | client/src/composables/useWebRTC.js:204-212 | Every stored connection is closed, both maps are empty, every local track is stopped and the local stream is null; only the connections' `closed` and the tracks' `stopped` flags change, so descriptions, candidates and `enabled` keep their values. |
| `WebRTC.FirstAudio` | client/src/composables/useWebRTC.js:217 | Finds the first audio track: none exactly when no track is audio, else an audio track preceded only by non-audio tracks. |
| `WebRTC.Session.IsMuted` | client/src/composables/useWebRTC.js:215-221 | Muted when there is no local stream or it has no audio track; otherwise muted exactly when the first audio track is disabled. |

## Left out

- Socket.IO itself: `socket.join` / `socket.leave`, room names `room:<meetingId>`, and delivery. Emits are recorded in the outbox with their addressing only; which sockets actually receive a room emit depends on Socket.IO's own room membership, which is not modelled.
- Insertion order of JavaScript `Map`s: rooms are Dafny maps, so the order of the `room-users` list and the order in which `disconnect` visits rooms are unspecified in the model (`Disconnect` returns the visiting order as a ghost value instead).
- `chat-message` persistence (`addChatMessage`): the stored row's timestamp is a parameter of `Chat`. The broadcast runs only after the insert succeeds (server/src/app.js:166-167); a payload without a sender name, content or meeting key violates a NOT NULL column of `chat_messages`, the insert throws and nothing is emitted. `Chat` takes strings, so it cannot express that case.
- The meeting store (better-sqlite3, SQL, the drop-and-recreate at start, `Math.random` meeting numbers): the store is a value; the drawn meeting number is a parameter of `CreateMeeting`.
- The response body of a successful create-meeting request: its source text is not valid JavaScript, so `CreateMeeting` answers only the new meeting id.
- `GET /api/meetings/:meetingNo`, `GET /api/health`, Express middleware, static files and the SPA fallback: plumbing without state.
- Admission.JoinMeeting: does not model a request without a name (the store's NOT NULL constraint would then make the insert fail and the route answer 500), nor the parsing of the `:id` path segment; the id arrives as an integer. The supplied password is an optional string, so a non-string password (the number 1234 against a stored "1234") cannot be expressed, although the strict `!==` comparison in server/src/app.js:103 answers it with 401.
- Admission.CreateMeeting: does not model non-string request fields; title, host name and password are optional strings.
- Store failures other than a duplicate meeting number (the routes' catch-all 500).
- Browser media APIs: `getUserMedia`, the internals of `RTCPeerConnection`, and the asynchronous `createOffer` / `createAnswer` / `setLocalDescription` work and its failures; the offers and answers the client then emits are not modelled, and `HandleOffer` / `HandleAnswer` / `HandleIceCandidate` record the applied payload on the connection handle.
- `onicecandidate` emits and `handleUserJoined`'s 500 ms timer: foreign, asynchronous and timing-dependent.
- `getLocalAudioStream`, `getRemoteAudioStream`, `getAllRemoteAudioStreams`: plain getters.
- The peer maps and the local stream are module-level in the client and shared by every `useWebRTC()` call, while the socket is per call; the model has one `Session` holding both.
- End-to-end compatibility of client and server: the client emits `webrtc-offer` / `webrtc-answer` / `webrtc-ice-candidate` and reads `fromSocketId`, while the server listens on `offer` / `answer` / `ice-candidate` and sends `from`; each side is modelled against its own code.
- Host, mute, hand-raise moderation, idle room reclamation and a one-room-per-socket rule: none of them exists in the code modelled here.
- `useSocket.js`, `main.js`, `vite.config.js`: a socket.io-client wrapper, bootstrap and build configuration with no logic of their own.
