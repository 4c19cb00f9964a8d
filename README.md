# videocall-client control core in Dafny

This project models the client-side control layer of the videocall client. It covers three pieces.

- **The connection lifecycle** (`connection/connection.rs`). A connection is `Closed`, `Connecting` or `Connected`. `connect`, `complate_connection` and `disconnect` read the current state and return a new one. Only `Connected` owns the heartbeat timer (every 1000 ms) and the peer-monitor timer (every 5000 ms). Only `Connecting` and `Connected` own a transport handle (`Task`). `send_packet` forwards a packet only while `Connected`.
- **Media-management commands** (`client/media_management_interface.rs`). A command (`SubscribeTo`, `UnSubscribeFrom` or `NotifyOngoinStream` in the source) maps to an addressee and an event type. The inner message is serialised and encrypted, then wrapped in a `MEDIA_MANAGEMENT` envelope from the sender. Exactly one envelope is handed to the packet sender.
- **The peer subscription manager** (`client/peer_subscribtion_manager.rs`). It follows at most 20 peers. `subscribe` checks capacity, then membership, then inserts the peer and sends one `SubscribeTo` command. `unsubscribe` only removes the peer locally.

Files:

- `wrappers.dfy`: `Option` and `Result`.
- `wire.dfy`: the protobuf messages (`PacketWrapper`, `MediaManagementPacket`, `MediaPacket`). The protobuf library appears as a `Codec` per message: a writer that may fail and a parser.
- `crypto.dfy`: the shared cipher (`Aes128State`) as a pair of opaque functions. `Seal` is the step "serialise, then encrypt, panicking if either fails" that both packet builders share.
- `transport.dfy`: the transport `Task`, the `SendPacket` capability and the yew peer-monitor `Callback`. They are classes that log what they receive.
- `media_management.dfy`, `connection.dfy`, `peer_subscriptions.dfy`: the three core files.

The model renames a few identifiers to their intended spelling. `complate_connection` becomes `CompleteConnection`. `UnSubscribeFrom` becomes `UnsubscribeFrom`. `NotifyOngoinStream` becomes `NotifyOngoingStream`. `PeerSubscribtionManager` becomes `PeerSubscriptionManager`.

Each `unwrap` on serialisation or encryption is a panic. The model represents it as `Result.Failure(Panic)` or `Outcome.Panicked`, never as a packet. In `subscribe`, the source inserts the peer before it builds the packet. So a panic during construction leaves the peer followed with no `SubscribeTo` sent. The model keeps that order, and `Replay` ends a run at the panic.

## Model

| member | source | states |
|---|---|---|
| Crypto.Seal | videocall-client/src/client/media_management_interface.rs:71 | the payload is the cipher's output over the serialised message; it succeeds exactly when both serialisation and encryption succeed, and a serialisation failure is reported as such |
| Crypto.SealThenOpen | videocall-client/src/connection/connection.rs:113 | for a cipher and codec that round-trip, decrypting and parsing a sealed payload gives back the original message |
| MediaManagement.Dispatch | videocall-client/src/client/media_management_interface.rs:25-41 | SubscribeTo(peer) maps to (peer, SUBSCRIBE), UnsubscribeFrom(peer) to (peer, UNSUBSCRIBE), NotifyOngoingStream to (own userid, ONGOING_STREAM) |
| MediaManagement.PrepareManagementPacket | videocall-client/src/client/media_management_interface.rs:60-78 | on success, the envelope's email is the sender userid, its type is MEDIA_MANAGEMENT and its data is the encryption of the serialised inner message; it fails exactly when sealing fails, with the same panic |
| MediaManagement.CommandRoundTrip | videocall-client/src/client/media_management_interface.rs:19-78 | for every command, the envelope comes from the sender and is MEDIA_MANAGEMENT, and opening its payload yields the inner message that the dispatch table prescribes (self-addressed for NotifyOngoingStream) |
| MediaManagement.SendMediaManagementPacket | videocall-client/src/client/media_management_interface.rs:44-58 | appends exactly the prepared envelope to the sender's log, or on a panic appends nothing and reports it |
| MediaManagement.SendCommand | videocall-client/src/client/media_management_interface.rs:19-42 | completes exactly when the command's envelope can be built, and then hands exactly that one packet to the sender; on a panic it sends nothing |
| Transport.PacketSender.SendPacket | videocall-client/src/client/send_packet.rs:3-5 | the sink receives exactly the one packet passed to it |
| Connections.Handle | videocall-client/src/connection/connection.rs:18-41 | a transport handle exists exactly in the Connecting and Connected states |
| Connections.Timers | videocall-client/src/connection/connection.rs:26-31 | timers exist exactly in the Connected state; in a well-formed state the heartbeat sends on that state's own task |
| Connections.New | videocall-client/src/connection/connection.rs:44-46 | a new connection is Closed and owns no transport and no timers |
| Connections.Disconnect | videocall-client/src/connection/connection.rs:88-91 | from every state the result is Closed, owning no transport and no timers |
| Connections.Connect | videocall-client/src/connection/connection.rs:48-76 | from Closed it yields Connecting with options.userid, the transport's new task, the given cipher and options.peer_monitor, or Closed if the transport fails; from a live state it equals Disconnect; it never yields Connected and never holds a task when the old state held one |
| Connections.ConnectedFrom | videocall-client/src/connection/connection.rs:125-136 | keeps the Connecting task; the heartbeat runs every 1000 ms on that task as that user with that cipher; the monitor runs every 5000 ms and emits that peer monitor |
| Connections.CompleteConnection | videocall-client/src/connection/connection.rs:78-86 | Connected exactly when the state was Connecting (keeping its handle); Closed otherwise; the result is well-formed |
| Connections.IsConnected | videocall-client/src/connection/connection.rs:93-95 | true exactly in the Connected state, which is exactly when timers are owned |
| Connections.HeartbeatPacket | videocall-client/src/connection/connection.rs:107-119 | on success, the envelope's email is the userid, its type is MEDIA_MANDATORY and its data is the encryption of the serialised HEARTBEAT media packet from that userid; it fails exactly when sealing fails |
| Connections.HeartbeatRoundTrip | videocall-client/src/connection/connection.rs:107-119 | opening a heartbeat payload yields a HEARTBEAT media packet from the userid with the given timestamp |
| Connections.SendPacket | videocall-client/src/connection/connection.rs:97-101 | while Connected, the packet is appended to the task's outbox; in Connecting, the task is untouched; in Closed there is nothing to change |
| Connections.Fire | videocall-client/src/connection/connection.rs:105-134 | one heartbeat tick appends exactly the heartbeat packet to the captured task's outbox, or panics and sends nothing; one monitor tick emits the callback exactly once |
| Connections.Run | videocall-client/src/connection/connection.rs:48-91 | every sequence of connect, complete and disconnect calls keeps a well-formed state well-formed |
| Connections.ConnectedOnlyAfterHandshake | videocall-client/src/connection/connection.rs:48-91 | after any calls since new, a Connected state comes from a connect made while Closed, immediately followed by complete; it holds that connect's task, and its heartbeat uses that connect's userid and cipher |
| PeerSubscriptions.Decide | videocall-client/src/client/peer_subscribtion_manager.rs:33-44 | the limit is reached exactly when 20 or more peers are followed, even for a member; the peer is already subscribed exactly when below the limit and a member; the request is accepted exactly when below the limit and not a member |
| PeerSubscriptions.AfterSubscribe | videocall-client/src/client/peer_subscribtion_manager.rs:31-47 | the bound of 20 is preserved, no peer is lost, the peer is followed afterwards exactly when it was already followed or there was room, no other peer is added, and at capacity nothing changes |
| PeerSubscriptions.PeerSubscriptionManager.constructor | videocall-client/src/client/peer_subscribtion_manager.rs:23-29 | stores the userid and the cipher; follows nobody |
| PeerSubscriptions.PeerSubscriptionManager.Subscribe | videocall-client/src/client/peer_subscribtion_manager.rs:31-57 | keeps the set within 20; the new set follows from the decision; an accepted peer gets exactly one SubscribeTo(peer) envelope from userid, or a panic after insertion; a rejected request sends nothing |
| PeerSubscriptions.PeerSubscriptionManager.Unsubscribe | videocall-client/src/client/peer_subscribtion_manager.rs:59-61 | the followed set becomes the old set minus the peer; this is idempotent, and no sender is involved |
| PeerSubscriptions.PeerSubscriptionManager.IsSubscribedTo | videocall-client/src/client/peer_subscribtion_manager.rs:63-65 | exactly membership in the followed set; reads and changes nothing |
| PeerSubscriptions.Replay | videocall-client/src/client/peer_subscribtion_manager.rs:31-61 | any sequence of subscribe and unsubscribe calls keeps at most 20 peers followed |
| PeerSubscriptions.ReplayMembership | videocall-client/src/client/peer_subscribtion_manager.rs:31-61 | in a run without a panic, a peer is followed exactly when the latest effect on it is a sent SubscribeTo, or, with no effect on it, when it was followed at the start |
| PeerSubscriptions.FollowedIffLastSentSubscribe | videocall-client/src/client/peer_subscribtion_manager.rs:31-61 | starting from new, the followed peers are exactly those whose latest effect is a sent SubscribeTo for them |
| PeerSubscriptions.SubscribeTwiceSendsOnce | videocall-client/src/client/peer_subscribtion_manager.rs:40-54 | subscribing twice to a new peer below the limit follows it once and sends exactly one SubscribeTo, for that peer |

## Left out

- Task transport internals are not part of this model. This covers WebSocket and WebTransport, `Task::connect` and `task.send_packet`. `Task::connect` is a function parameter (`TaskConnect`), and a task is an object with an outbox log.
- AES-128 and protobuf encoding are opaque functions (`Cipher`, `Codec`). Round-trip properties assume `RoundTrips()` of them as a hypothesis.
- Timer scheduling is not modelled. Periods are constants, and `Fire` is one firing of a timer's closure. A timer that the state no longer owns is cancelled, so it cannot fire. Real-time ordering and interleaving are not modelled.
- `js_sys::Date::now()` is a parameter `now: real`. Floating-point behaviour is not modelled.
- Logging (`debug!`, `error!`, `info!`) is not modelled. The logs are its only effect.
- Protobuf fields left at their defaults are not modelled. Neither are the `ConnectOptions` fields that only reach the transport.
- `Rc` reference counting is not modelled. Shared handles are plain values or object references.
- The Yew UI host component (`yew-ui/src/components/host.rs`) is not modelled. It is glue around browser timers and media encoders.
- `client/mod.rs` is not modelled. It holds only module declarations.
