# Verified model of the game gateway

A Dafny model of the gateway's stateful protocols and of its byte-level codecs, with
proofs of what they promise. It covers the gRPC client manager, the WebSocket adapter
and both wire formats, the forwarding loops, session IDs and the session store, the
backend connection pool, the per-IP limiter, the hand-off of accepted connections, and
the router with its merge of Redis configurations and Consul endpoints.

`dafny verify dfyconfig.toml` checks everything.

| file | models |
|---|---|
| GrpcManager.dfy | every interleaving of `Send`, `getClient`, `recvLoop` and `reconnect` over the `clients` map, before `Close` |
| GrpcCleanup.dfy | what becomes of a client whose stream fails, in those interleavings, and the runs without interference |
| Bytes.dfy, Wrappers.dfy, Arithmetic.dfy | bytes, fixed-width integers, byte orders, `io.ReadFull`; what several files share |
| WebSocketFrame.dfy, WebSocketConn.dfy | the framing of RFC 6455 and the `WebSocketConn` adapter |
| Packet.dfy, ServerMessage.dfy | client packets, server and gate headers, whole server messages, trace context |
| Connection.dfy | `ReadFullPacket` over TCP segments and over WebSocket |
| Forwarding.dfy | both loops of `forwardConnection` |
| GrpcSession.dfy | a session in gRPC mode, and `sendToSession` |
| SessionId.dfy, SessionStore.dfy | the ID generator with its parser, and the sharded store |
| Pool.dfy, IpLimiter.dfy, AcceptQueue.dfy | the allocators: backend connections, connections of an address, accepted connections |
| Router.dfy, RoundRobin.dfy, RuleMerge.dfy | rule table, concurrent round-robin tickets, merging with Consul |

How the model is built:

- Code that runs concurrently (GrpcManager, AcceptQueue, RoundRobin) is a transition
  system with one step for each operation that other goroutines can see; a theorem about
  `Final(Init, actions)` is about every run and every interleaving.
- Code that updates objects is a class; each method is proved against a function on
  values, and the theorems about whole runs are about those functions (SessionStore,
  Pool, IpLimiter, SessionId).
- Time, dials, sends, span contexts and map iteration orders are inputs, quantified over
  in every theorem. Where the source asks for something of a clock, the theorem says so.

What the proofs found, besides confirming what was expected:

- A dead gRPC client can stay mapped, with nothing left that would remove it before the next
  failing `Send`: its stream fails, and its receive loop looks for it, before it is stored.
  `GrpcCleanup.QuietCleanup` shows that this is the only way, and
  `GrpcCleanup.DeadClientStays` is such a run.
- A binary message that starts with an empty fragment is refused by the adapter although
  RFC 6455 allows it, and so is a frame over the size limit:
  `WebSocketConnection.StreamReassembly` shows that these are the only reasons a conforming
  client of binary messages fails, and what it got delivered before.
- Frames and packets have the same limit, so a packet whose data is within 8 bytes of it is
  read over TCP but refused when it is sent as one WebSocket message
  (`Connection.OneMessagePerPacket`).
- A 64-bit frame length with its top bit set passes the size limit and reaches the
  allocation as a negative number (`WebSocketFrame.NegativeLengthExactly`).
- A payload above 65535 bytes from a backend breaks the client stream, since the client
  header keeps 16 bits of its length. The backend-to-client loop always reads the 9-byte gate
  header: on a 33-byte one it stays aligned (`Forwarding.BackendAlignment`), but passes 24
  bytes of trace and span to the client as data. `Forwarding.ClientDecodes` shows that these
  are the only two reasons a client decodes something else.
- The comments speak of a 16-byte server header; the code's constant and both codecs use
  20 bytes (internal/protocol/packet.go:18). The model follows the code.
- A millisecond yields 4095 session IDs, not 4096, and IDs are negative for the half of the
  pods whose 12-bit hash has its top bit set (`SessionId.PackOrder`). If the clock stays in,
  or returns to, a millisecond whose sequence is used up, an ID is issued twice
  (`SessionId.IdsIncrease`).
- A connection that is enqueued after the queue processor has drained the queue stays
  there, with its WaitGroup unit: `AcceptQueue.LateEnqueueHappens` is such a run, and
  `AcceptQueue.QuietGateway` shows it is the only way the WaitGroup misses its base.
- `Put` or `Remove` of a connection that is not active corrupts the pool's counter unless
  nothing is active: `Pool.PutSound` and `Pool.RemoveSound` are equivalences.
- `Pool.Cleanup` never keeps an idle connection: it waits, under the pool's lock, until
  every one has expired.
- The merged rule table depends on map iteration orders exactly if a listed world has both
  an exact and a wildcard configuration of one server type that differ in service name,
  strategy or hash key (`RuleMerge.OneTable`); with negative world IDs it can depend on them
  without any configuration (`RuleMerge.NegativeWorldAmbiguous`).

## Model

| member | source | states |
|---|---|---|
| GrpcManager.StepKeepsInv | internal/transport/grpc/manager.go:114-414 | Every step of every goroutine keeps the invariant that ties the map, each client's log of stores, removals, closes and restarts, and each goroutine's duties together. |
| GrpcManager.NoReconnectLost | internal/transport/grpc/manager.go:250-414 | In every interleaving, an address that was ever stored is mapped, or some goroutine removed it and has still to start `reconnect`, or a `reconnect` of it is pending. |
| GrpcManager.ClientLifecycle | internal/transport/grpc/manager.go:114-279 | In every interleaving, a client is stored, removed and closed at most once, its removal starts at most one `reconnect`, it is mapped exactly between store and removal, is not closed while mapped, and is removed only after its own stream failed. |
| GrpcManager.OneHolder | internal/transport/grpc/manager.go:239-279 | The goroutine that has still to store or close a client is unique, and meanwhile the client is neither mapped nor closed. |
| GrpcManager.NoClientLeaked | internal/transport/grpc/manager.go:146-279 | Every created client is mapped and open, or unmapped and closed once, or held by a goroutine that will store or close it. |
| GrpcManager.QuietManager | internal/transport/grpc/manager.go:114-414 | With no step in flight, every created client is mapped or closed but not both, every removal has started its `reconnect`, and every address ever stored is mapped. |
| GrpcCleanup.StepKeepsCleanup | internal/transport/grpc/manager.go:114-414 | Every step keeps what the next three theorems rest on: a client in use whose stream failed has someone about to remove it, or was missed by its receive loop before the store; `Send` uses only clients that were stored. |
| GrpcCleanup.FailedSendRemoves | internal/transport/grpc/manager.go:120-131 | In every interleaving, a client on which some `Send` failed is no longer mapped, or a `Send` is about to remove it. |
| GrpcCleanup.BrokenIsRemoved | internal/transport/grpc/manager.go:264-279 | In every interleaving, a mapped client whose stream has failed is about to be removed by `Send` or its receive loop, unless that loop looked for it before it was stored. |
| GrpcCleanup.QuietCleanup | internal/transport/grpc/manager.go:114-279 | With no step in flight, no client on which a `Send` failed is mapped, and a mapped client is broken exactly if its receive loop missed it. |
| GrpcCleanup.DeadClientStays | internal/transport/grpc/manager.go:246-250 | An interleaving that ends with a broken client mapped and no step in flight. |
| GrpcCleanup.SendSucceeds | internal/transport/grpc/manager.go:114-144 | Alone, a `Send` to a mapped address whose stream takes the packet changes nothing. |
| GrpcCleanup.SendFails | internal/transport/grpc/manager.go:120-131 | Alone, a `Send` whose stream fails unmaps and closes its client and starts one `reconnect`. |
| GrpcCleanup.Connects | internal/transport/grpc/manager.go:146-262 | Alone, `getClient` of an unmapped address creates one client, starts its receive loop, maps it, and lets its caller go on with it. |
| GrpcCleanup.LoserGivesWay | internal/transport/grpc/manager.go:250-261 | A client that finds its address taken is closed, and its creator goes on with the mapped one. |
| GrpcCleanup.OneStepRuns | internal/transport/grpc/manager.go:281-292 | A receive loop goes on as long as its stream does, and a `Send` whose dial fails just returns. |
| GrpcCleanup.ReconnectBegins | internal/transport/grpc/manager.go:328-333 | A `reconnect` of a mapped address ends at once, and of an unmapped one goes on to `getClient`. |
| GrpcCleanup.ReconnectFails | internal/transport/grpc/manager.go:380-414 | A `reconnect` whose dial fails ends by starting another. |
| Bytes.LittleEndianRoundTrip | internal/protocol/packet.go:54-82 | Little-endian encoding in n bytes and decoding give the number back. |
| Bytes.BigEndianRoundTrip | internal/protocol/websocket_conn.go:151-165 | Big-endian encoding in n bytes and decoding give the number back. |
| Bytes.LittleEndianAt | internal/protocol/packet.go:72-82 | Byte i has weight 256 to the power i. |
| Bytes.BigEndianAt | internal/protocol/websocket_conn.go:191-227 | Byte i from the end has weight 256 to the power i. |
| Bytes.XorAt | internal/protocol/websocket_conn.go:180-182 | Every bit of the exclusive or is the sum of the two bits without carry. |
| WebSocketFrame.MaskTwice | internal/protocol/websocket_conn.go:180-182 | Masking with the same key twice gives the payload back, on every payload. |
| WebSocketFrame.MaskAt | internal/protocol/websocket_conn.go:180-182 | Masking flips each bit of byte i exactly if that bit of key byte i mod 4 is set. |
| WebSocketFrame.MaskedExamples | internal/protocol/websocket_conn.go:133-189 | The masked frames of section 5.7 of RFC 6455 are read as the RFC says. |
| WebSocketFrame.UnmaskedExamples | internal/protocol/websocket_conn.go:191-227 | The short unmasked frames of section 5.7 of RFC 6455 are written as the RFC says. |
| WebSocketFrame.LongExamples | internal/protocol/websocket_conn.go:191-227 | So are its frames of 256 bytes and of 64 KiB, for every payload of these lengths. |
| WebSocketFrame.UnmaskedRefused | internal/protocol/websocket_conn.go:146-149 | A frame is refused as unmasked exactly if its second byte has the top bit clear. |
| WebSocketFrame.FrameBreaksOff | internal/protocol/websocket_conn.go:133-179 | A frame that breaks off anywhere, and is within the limit, is an end of file. |
| WebSocketFrame.ReadInvertsClient | internal/protocol/websocket_conn.go:133-189 | For every frame, mask key and length form that fits, `readFrame` returns the frame and consumes exactly its bytes; above the limit it refuses it before the payload. |
| WebSocketFrame.ReadOnlyClient | internal/protocol/websocket_conn.go:133-189 | Whatever bytes `readFrame` accepts are the masked encoding of the frame it returns, followed by what it leaves. |
| WebSocketFrame.NegativeLengthExactly | internal/protocol/websocket_conn.go:144-179 | A negative length reaches the allocation exactly if the frame is masked, has eight length bytes with the top bit set, and its mask key is there; the limit does not prevent it. |
| WebSocketFrame.ServerFrameRoundTrip | internal/protocol/websocket_conn.go:191-227 | A client's parser inverts `writeFrame` and leaves the exact remainder, and the length form is the shortest. |
| WebSocketConnection.WebSocketConn.ReadFrame | internal/protocol/websocket_conn.go:133-189 | The method consumes the input exactly as the frame grammar says, error cases and what they consume included. |
| WebSocketConnection.UnmaskInPlace | internal/protocol/websocket_conn.go:180-182 | The loop leaves the array holding the masked image of what it held. |
| WebSocketConnection.WebSocketConn.WriteFrame | internal/protocol/websocket_conn.go:191-227 | The bytes written are the unmasked encoding of the frame with the minimal length form. |
| WebSocketConnection.WebSocketConn.WriteControlFrame | internal/protocol/websocket_conn.go:229-234 | The bytes written are one final control frame with at most 125 bytes of the payload. |
| WebSocketConnection.WebSocketConn.NextDataPayload | internal/protocol/websocket_conn.go:88-125 | What it returns, followed by all that the connection will still deliver and reply, is all that it would have delivered and replied before the call. |
| WebSocketConnection.WebSocketConn.Read | internal/protocol/websocket_conn.go:55-70 | A read of any size returns a prefix of what is still to be delivered and changes nothing else of it; it fails exactly when nothing is left, with the final error. |
| WebSocketConnection.StreamReassembly | internal/protocol/websocket_conn.go:55-125 | For every sequence of binary messages and control frames other than close that conforms to sections 5.4 and 5.5 of RFC 6455, however masked: exactly if no first fragment is empty and no frame is over the limit, all frames are taken, the bytes delivered are the binary payloads in order, and the replies are one pong for each ping, in order, with its payload; otherwise the messages complete before the first offending frame are delivered, the pings before it answered, and the error is the one for that frame. |
| WebSocketConnection.FirstOffenceIs | internal/protocol/websocket_conn.go:88-125 | The first offending frame is the first that is over the limit or continues a message that has had nothing but an empty first fragment. |
| WebSocketConnection.NoOffence | internal/protocol/websocket_conn.go:88-125 | A conforming sequence has no offending frame exactly if no first fragment is empty and no frame is over the limit. |
| WebSocketConnection.CleanEnd | internal/protocol/websocket_conn.go:55-125 | Such a client is read to a clean end exactly if no first fragment is empty and no frame is over the limit. |
| WebSocketConnection.ClosedByClient | internal/protocol/websocket_conn.go:88-125 | A close frame after such a sequence is echoed and ends the stream cleanly, all data delivered and all pings answered before. |
| WebSocketConnection.TextRefused | internal/protocol/websocket_conn.go:118-120 | A text frame after such a sequence ends the stream with the unsupported-frame error, all data delivered and all pings answered before, whatever follows. |
| WebSocketConnection.FrameByFrame | internal/protocol/websocket_conn.go:88-125 | What a frame of each opcode does in whatever state the connection is, frames that break the protocol and reserved opcodes included. |
| WebSocketConnection.SomeEmptyFirstFails | internal/protocol/websocket_conn.go:101-112 | Within the limit, a conforming sequence in which some fragmented message starts empty is refused at that message's first continuation, after all data before it was delivered and all pings before it answered. |
| Packet.ClientHeaderRoundTrip | internal/protocol/packet.go:54-82 | Parsing a written client header gives it back. |
| Packet.ClientHeaderBytes | internal/protocol/packet.go:72-82 | The header byte by byte: length, message ID and server ID, each least significant byte first. |
| Packet.ExtractServerIDInfo | internal/protocol/packet.go:85-91 | The four fields are in range and together make up the whole server ID. |
| Packet.PacketRoundTrip | internal/protocol/packet.go:171-212 | A packet of any payload is read back and exactly its bytes are consumed, unless it is over the limit, which is reported before its data is read. |
| Packet.PacketBreaksOff | internal/protocol/packet.go:171-212 | A packet that breaks off gives the reader's error, an end of file being unexpected unless it comes before the header or right after it. |
| Packet.StreamRoundTrip | internal/protocol/packet.go:171-212 | Every stream of packets within the limit is read back packet by packet, whatever follows it. |
| Packet.ServerHeaderRoundTrip | internal/protocol/server_packet.go:10-25 | Parsing a written server header gives it back, negative fields included. |
| Packet.ServerHeaderBytes | internal/protocol/packet.go:102-116 | The header byte by byte: each field least significant byte first, in two's complement. |
| Packet.GateRoundTrip | internal/protocol/server_packet.go:30-61 | Read in the mode it was written in, a gate header comes back; without a trace ID its span ID does not. |
| Packet.GateBytes | internal/protocol/packet.go:130-160 | The header byte by byte: 33 bytes with trace and span exactly if the trace ID is not all zeros, and 9 otherwise. |
| ServerMessage.HexRoundTrip | internal/protocol/packet.go:229-254 | Hexadecimal IDs decode to the bytes they were encoded from. |
| ServerMessage.HexDecodeIs | internal/protocol/packet.go:229-242 | Decoding succeeds exactly on an even number of hexadecimal digits, and each byte is two of them, the high one first. |
| ServerMessage.IdFromIs | internal/protocol/packet.go:229-242 | An ID is taken exactly if it is there with the right number of digits, all of them hexadecimal; otherwise it is all zeros. |
| ServerMessage.TracePropagates | internal/gateway/gateway.go:1313-1332 | The IDs of a valid span arrive in the gate header, and an invalid span selects the short header. |
| ServerMessage.WriteServerMessage | internal/protocol/packet.go:219-276 | The bytes appended are the encoding of one message with this type, session, data and trace, malformed trace IDs being dropped. |
| ServerMessage.MessageRoundTrip | internal/protocol/server_packet.go:10-61 | Read in the mode it was written in, a message comes back and exactly its bytes are consumed. |
| ServerMessage.ShortFormRead | internal/gateway/gateway.go:1465-1500 | Read with the short gate header, a message of either form still yields exactly its bytes; the long form's trace and span then count as data. |
| ServerMessage.ShortLengthExactly | internal/gateway/gateway.go:1476-1484 | A length too short for the gate header is reported exactly if both headers are there and the length field is below the gate header's size. |
| Connection.Conn.ReadFullPacket | internal/protocol/packet.go:171-212 | Over TCP segments or WebSocket, successive calls return the packets of the delivered byte stream one by one, and then its error. |
| Packet.PrefixRun | internal/protocol/packet.go:171-212 | A packet stream that breaks off yields fewer packets if it breaks off inside them; and a stream that ends in a packet over the limit ends the same way exactly as far as that packet's header arrives. |
| Connection.SegmentationIndependence | internal/protocol/websocket_conn.go:55-125 | For any bytes and every way a conforming client cuts them into messages, fragments and control frames, the packets read over WebSocket and the error after them are those of the raw bytes exactly if no first fragment is empty and no frame is over the limit, or the raw bytes end in the same refusal of a packet over the limit. |
| Connection.PacketsOverWebSocket | internal/protocol/websocket_conn.go:55-125 | A stream of packets within the limit is read over WebSocket, to a clean end, exactly if no first fragment is empty and no frame is over the limit. |
| Connection.OneMessagePerPacket | internal/gateway/gateway.go:897-901 | With one limit for frames and packets, a packet sent as one message is read over WebSocket exactly if its data is at least 8 bytes below the limit, though over TCP it is read up to the limit. |
| Forwarding.ForwardToBackend | internal/gateway/gateway.go:1383-1446 | The loop writes one message for each packet, in order, until the client fails or the session ends, and counts their data. |
| Forwarding.TotalDataIs | internal/gateway/gateway.go:1383-1446 | The bytes counted are those read from the client, less 8 for each packet. |
| Forwarding.MessagesRoundTrip | internal/protocol/server_packet.go:10-61 | Any concatenation of messages in mixed header modes is read back, leaving the exact remainder. |
| Forwarding.ForwardRoundTrip | internal/gateway/gateway.go:1383-1446 | Read by the backend, the forwarded stream is the client's packets: message ID and payload unchanged, the session's ID, and the span's IDs exactly where propagation was on and the span valid. |
| Forwarding.ReadMessage | internal/gateway/gateway.go:1465-1500 | The reads of one iteration consume exactly one message in the short form, error cases included. |
| Forwarding.ForwardToClient | internal/gateway/gateway.go:1456-1546 | The loop writes one client packet for each backend message, in order, until the stream fails or the session ends, and counts their data. |
| Forwarding.TotalPayloadIs | internal/gateway/gateway.go:1502-1505 | The bytes counted are those written to the client, less 8 for each packet. |
| Forwarding.BackendAlignment | internal/gateway/gateway.go:1456-1546 | On every concatenation of messages in either header mode the loop stays aligned to message boundaries. |
| Forwarding.ClientDecodes | internal/gateway/gateway.go:1500-1546 | For every concatenation of backend messages, the client decodes the same payloads under the types modulo 2^16 if and only if every message has the short gate header and a payload of at most 65535 bytes. |
| GrpcSession.HandedMeaning | internal/gateway/gateway_grpc.go:238-275 | Of the client's packets a prefix is handed to `Send`; all but its last were sent, and if it is proper its last one failed. |
| GrpcSession.SentDataIs | internal/gateway/gateway_grpc.go:238-275 | The bytes counted are those of the packets that `Send` took, less 8 for each. |
| GrpcSession.ForwardGrpc | internal/gateway/gateway_grpc.go:209-276 | The loop hands that prefix to `Send` in order, ID and payload unchanged, and counts the data of the packets sent. |
| GrpcSession.RunSession | internal/gateway/gateway.go:1167-1297 | A session hands to `Send` nothing, or one failed connect, or one connect, then a prefix of the client's packets in order, then exactly one disconnect. |
| GrpcSession.SendTcp | internal/gateway/gateway_grpc.go:166-204 | The TCP branch writes exactly the bytes of one client packet and counts them. |
| GrpcSession.SendWebSocket | internal/gateway/gateway_grpc.go:130-160 | The WebSocket branch writes the same bytes as one binary frame and counts the same. |
| GrpcSession.BranchesAgree | internal/gateway/gateway_grpc.go:88-206 | The client gets the same bytes from both branches, and they decode to the message if and only if its payload is at most 65535 bytes long. |
| SessionId.FieldsDisjoint | internal/gateway/gateway.go:1636-1641 | Joining the three fields with bitwise or adds them. |
| SessionId.ParseRoundTrip | internal/gateway/gateway.go:1560-1574 | Parsing recovers pod hash, timestamp and sequence of every ID, negative IDs included. |
| SessionId.PackOrder | internal/gateway/gateway.go:1636-1641 | IDs of one pod are ordered as `int64` by time and sequence, and negative exactly if the pod hash has its top bit set. |
| SessionId.Generator.Generate | internal/gateway/gateway.go:1595-1643 | A call sleeps through the readings that issue nothing and returns the ID of the first that does, with that reading's milliseconds as its timestamp, leaving the state the run reaches there. |
| SessionId.IdsIncrease | internal/gateway/gateway.go:1595-1643 | For every clock, the IDs of a pod are strictly increasing if the clock never stays in or returns to a millisecond whose sequence is used up; if it does, an ID is repeated. |
| SessionId.SteadyIds | internal/gateway/gateway.go:1595-1643 | With a clock that does not go back, that a sleep advances, within one 2^40 ms span, IDs are strictly increasing and no iteration sleeps twice in a row. |
| SessionId.IdsCarryTime | internal/gateway/gateway.go:1595-1643 | Every ID of every run carries the milliseconds, modulo 2^40, of the reading that issued it. |
| SessionId.OneMillisecond | internal/gateway/gateway.go:1610-1629 | A clock that stays in a new millisecond gets the sequences 1 to 4095 in order, and nothing after them. |
| SessionId.IdsAcrossPods | internal/gateway/gateway.go:1595-1643 | No ID is 0, sequences start at 1, the pod hash is recovered, and IDs of pods with different hashes differ. |
| SessionStore.LowBitsRemainder | internal/session/session.go:83-86 | The four lowest bits in two's complement of any integer are its remainder by 16, so negative IDs have a shard too. |
| SessionStore.MergeLookup | internal/session/session.go:83-103 | An ID is in the one map exactly if it is in the shard of its low bits, with the same session. |
| SessionStore.CallRefines | internal/session/session.go:83-173 | Every call on the shards does to the one map, and answers, what the call on one map does. |
| SessionStore.RunRefines | internal/session/session.go:72-173 | A new manager gives every sequence of calls the answers that one empty map gives. |
| SessionStore.Manager.AddSession | internal/session/session.go:89-94 | The sessions are as before with this one under its ID. |
| SessionStore.Manager.GetSession | internal/session/session.go:97-103 | Finds exactly the session that the one map holds under the ID. |
| SessionStore.Manager.RemoveSession | internal/session/session.go:106-111 | The sessions are as before without this ID. |
| SessionStore.Manager.UpdateLastActive | internal/session/session.go:114-121 | Sets the time of the session with this ID, if there is one, and of no other. |
| SessionStore.Manager.CountSessions | internal/session/session.go:124-132 | The sum over the shards is the size of the one map. |
| SessionStore.Manager.CleanupIdleSessions | internal/session/session.go:135-160 | Removes exactly the sessions whose last activity is more than the timeout ago, returns their number, and closes their connections and no others. |
| SessionStore.Manager.GetAllSessions | internal/session/session.go:163-173 | Lists every session, each once. |
| Pool.ConnectionPool.Get | internal/pool/pool.go:95-145 | Reuses the first idle connection exactly if there is one that is not past the timeout; otherwise refuses exactly if the counter is at the limit, and else hands out a new connection exactly if the dial succeeds; an expired first connection leaves the queue closed. |
| Pool.ConnectionPool.Put | internal/pool/pool.go:149-165 | The connection leaves the active ones and is queued if there is room. |
| Pool.ConnectionPool.Remove | internal/pool/pool.go:170-181 | The connection is closed and leaves the active ones. |
| Pool.ConnectionPool.Cleanup | internal/pool/pool.go:185-219 | With a clock that advances, the loop that puts back what it takes terminates, leaves the queue empty with everything in it closed and past the timeout, and returns how many these were. |
| Pool.ConnectionPool.Stats | internal/pool/pool.go:223-236 | In a sound pool, the total is the number of distinct connections held, and at most the limit. |
| Pool.StepKeeps | internal/pool/pool.go:95-219 | Every call keeps the counter right, active and idle connections distinct and within the limit, and every dialed connection in exactly one of active, idle and closed. |
| Pool.PoolIsSound | internal/pool/pool.go:95-219 | After every run in which callers give back only what they hold, all this is so, and a `Put` finds room in the queue. |
| Pool.PutSound | internal/pool/pool.go:149-165 | `Put` keeps a sound pool sound exactly if the connection is active, or nothing is active and the connection is not queued twice by it. |
| Pool.RemoveSound | internal/pool/pool.go:170-181 | `Remove` keeps a sound pool sound exactly if the connection is active or nothing is. |
| IpLimiter.Compact | internal/ratelimit/ip_limiter.go:59-68 | The in-place loop leaves the timestamps after the cutoff at the front, in order. |
| IpLimiter.RecentIs | internal/ratelimit/ip_limiter.go:59-68 | What is kept is exactly the timestamps after the cutoff, as often as they occur. |
| IpLimiter.IPLimiter.Cleanup | internal/ratelimit/ip_limiter.go:108-116 | Drops exactly the addresses whose live count is zero, from both maps. |
| IpLimiter.IPLimiter.Allow | internal/ratelimit/ip_limiter.go:37-79 | The new maps and the answer are those of the admission step, periodic cleanup included. |
| IpLimiter.IPLimiter.Release | internal/ratelimit/ip_limiter.go:82-92 | One connection less for the address, the entry dropped at zero, and nothing happens for an address without connections. |
| IpLimiter.RunIsLimited | internal/ratelimit/ip_limiter.go:37-116 | In every run with a clock that does not go back: admission k + rateLimit of an address comes at least a second after admission k, the live count is admissions minus releases and at most the maximum, and no count is zero, so cleanup drops no tracker. |
| IpLimiter.AdmittedExactly | internal/ratelimit/ip_limiter.go:37-79 | After every such run, a connection is admitted exactly if fewer than the maximum are live and fewer than rateLimit of all its address's admissions were less than 10^9 nanoseconds ago. |
| AcceptQueue.StepKeepsInv | internal/gateway/gateway.go:624-730 | Every step of accept loop, queue processor and workers keeps a connection in one place, with one unit between its `Add` and its `Done`; one that no worker got has one close in all, past or to come, and one that a worker had has been closed when the worker ends. |
| AcceptQueue.HandedOverOnce | internal/gateway/gateway.go:624-730 | In every interleaving, each accepted connection is in exactly one of placing, queued, handled and finished; the WaitGroup units held are those of the connections not finished, but for one before its `Add` or between its `Done` and its `Close` in the accept loop; each is released at most once and a finished one exactly once. A connection is not closed while the accept loop places it or it is queued; finished, it was closed exactly once if it was rejected, refused or drained, and at least once if a worker had it. |
| AcceptQueue.QuietGateway | internal/gateway/gateway.go:624-730 | When both loops have ended and all workers are done, the WaitGroup is above its base by exactly the connections enqueued after the processor returned. |
| AcceptQueue.LateIsStuck | internal/gateway/gateway.go:627-638 | Once the processor has returned, whatever is queued stays queued and keeps its unit. |
| AcceptQueue.LateEnqueueHappens | internal/gateway/gateway.go:709-719 | An interleaving in which a connection is enqueued after that. |
| AcceptQueue.QueueIsFifo | internal/gateway/gateway.go:624-730 | In every interleaving, connections leave the queue in the order they entered it, which is the order of acceptance. |
| AcceptQueue.RejectedOnlyWhenFull | internal/gateway/gateway.go:714-719 | A connection is rejected only by a step at which the queue is full, and queued only at one at which it is not. |
| AcceptQueue.StopsOnlyWhenTold | internal/gateway/gateway.go:624-672 | In every interleaving, the accept loop ends only in drain mode or after the cancellation, and the queue is drained only after the cancellation. |
| Router.KeyInjective | internal/router/router.go:55-60 | Two textual keys are equal exactly if server type and world are, worlds up to 0 counting as 0. |
| Router.KeyText | internal/router/router.go:55-60 | A key is the server type, a colon and the world, in decimals without leading zeros that denote these numbers. |
| Router.LookupAfterUpdate | internal/router/router.go:64-99 | Exactly which lookups a new rule changes: its own, and for a wildcard those of worlds without a rule. |
| Router.LookupAfterRemove | internal/router/router.go:73-99 | A world that loses its rule gets the wildcard's, and removing the wildcard affects only worlds without a rule. |
| Router.RouterState.UpdateRule | internal/router/router.go:64-69 | The rule is then the exact one for its type and world, and no other key changes. |
| Router.RouterState.RemoveRule | internal/router/router.go:73-78 | There is then no exact rule, and no other key changes. |
| Router.RouterState.GetRule | internal/router/router.go:83-99 | Finds the exact rule, or else the wildcard. |
| Router.RouterState.RouteRoundRobin | internal/router/router.go:144-170 | Takes the next ticket of the key of the requested world, and no other key's. |
| Router.RouterState.RouteByServerID | internal/router/router.go:106-140 | The four outcomes; which text is hashed for which strategy and selects the endpoint, or that a ticket does; a ticket is used up exactly when it selects. |
| RoundRobin.EveryTicketOnce | internal/router/router.go:144-170 | In every interleaving of callers through the double-checked creation, the tickets drawn for a key are 0 to N-1, each held by exactly one caller, and no caller is stuck. |
| RoundRobin.UsesFair | internal/router/router.go:165-167 | Any k consecutive tickets select each of n positions floor(k/n) or ceil(k/n) times. |
| RoundRobin.RoundRobinFair | internal/router/router.go:144-170 | In every interleaving, of the callers that hold any k consecutive tickets of a key, floor(k/n) or ceil(k/n) get each of n endpoints. |
| RuleMerge.EndpointsOf | internal/gateway/gateway.go:505-510 | One `address:port` text for each entry, in order. |
| RuleMerge.Gateway.StoreConfigs | internal/gateway/gateway.go:448-461 | Every configuration is stored under the key of its own type and world, later ones replacing earlier ones. |
| RuleMerge.StoredLast | internal/gateway/gateway.go:448-461 | Of the rules with a key the last is stored, without endpoints, and other keys are as they were. |
| RuleMerge.ConfigKeyInjective | internal/gateway/gateway.go:450-450 | Configurations share a key exactly if they are for the same server type and world, negative ones included. |
| RuleMerge.Gateway.MergeConsulEndpoints | internal/gateway/gateway.go:495-562 | For any iteration orders, the new table is the old one with the updates of the listed worlds applied in those orders. |
| RuleMerge.MergedAt | internal/gateway/gateway.go:495-562 | Whatever the orders, a key that some world and configuration make a rule for holds such a rule, and every other key is as it was. |
| RuleMerge.CandidateExactly | internal/gateway/gateway.go:512-560 | Which rules a listed world can get, field by field: one for each configuration that matches its world and the service name, or the round-robin rule of server type 200 if none does. |
| RuleMerge.UnmatchedWorld | internal/gateway/gateway.go:542-560 | A world that no configuration matches gets exactly that default rule, whatever the orders. |
| RuleMerge.MergedRules | internal/gateway/gateway.go:495-562 | For worlds that are not negative, whatever the orders, a touched rule has its own world's endpoints, and rules of absent worlds or worlds without entries are unchanged. |
| RuleMerge.UnambiguousFixed | internal/gateway/gateway.go:495-562 | If no key can get two different rules, all orders give the same table. |
| RuleMerge.AmbiguousVaries | internal/gateway/gateway.go:495-562 | If some key can, two orders give different tables. |
| RuleMerge.OneTable | internal/gateway/gateway.go:516-540 | For worlds that are not negative, no key can get two different rules exactly if no exact and wildcard configuration of one server type that both match a listed world differ. |
| RuleMerge.NegativeWorldAmbiguous | internal/router/router.go:55-60 | With a negative world, two orders can differ without any configuration. |

## Left out

- Logging, metrics, tracing spans, access logs, configuration loading and hot reload: no effect on what is proved.
- Redis, Consul over HTTP, the gRPC transport, sockets, deadlines and the goroutine pool's internals: a dial, send, receive or submit is a step that succeeds or fails as an input says.
- HTTP parsing, protocol sniffing and the WebSocket handshake: library calls and text checks before the modelled code starts.
- `Manager.Close`, `Pool.Close` and `Shutdown` as a whole: only the drain flag, the cancellation and the draining of the queue are modelled.
- That every mapped gRPC client has a running receive loop: the loop is started before the client is stored and can end first.
- The retry loop of `getClient` is one step that succeeds or fails; reconnect attempts are not counted, and the limit on them is an input.
- Failing writes to clients and backends, except failed sends in gRPC mode: a loop may stop before any packet instead.
- Panics: a negative length is an error outcome of the model, and recovery from a panic is not modelled.
- How callers classify the too-large error: they compare a wrapped error with `==`.
- The dispatch of `handleGrpcPacket` and the server's own disconnects.
- CRC-32 is an arbitrary function from texts to numbers.
- The reserved bits of a frame are read and ignored, as the code does; fragments of one message are limited only frame by frame, as in the code.
- Circuit breaker, retry, the global limiter, buffer pools, `GetStats`, `GetAllRules`, health endpoints and the load test tool: they would only add easy members.
- SessionId.Generator.Generate: models calls that do not overlap; at the grain of single atomics, an add between the swap of the timestamp and the reset of the sequence can be repeated.
- Pool.ConnectionPool.Get: one step for each call, as for the other methods of the pool; the channel operations outside the mutex are not interleaved.
- Pool.ConnectionPool.Cleanup: requires that no queued connection is marked in use, which every run of `Get`, `Put` and `Remove` on held connections keeps; with such a connection the loop would not end.
- Router.RouterState.RouteRoundRobin: the 64-bit counter does not wrap around.
- RuleMerge.Gateway.MergeConsulEndpoints: an update of the table is not interleaved with lookups.
- SessionStore.Manager.CountSessions: the shards are not changed between their locks; `CleanupIdleSessions` and `GetAllSessions` likewise.
