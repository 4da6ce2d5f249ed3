# DarkSideProtocol, verified

A Dafny model of the session layer of DarkSideProtocol and of the engines it stands on: framing, the
transport policy, the stream multiplexer and the panel's store. `dafny verify dfyconfig.toml` checks it.

## What is modelled

Code that changes fields in place is modelled as classes whose methods are proved to compute a function of
the old state; the laws are lemmas about those functions over every state, step and run. Code that only
computes is modelled as functions.

| module | what it is |
|---|---|
| `Wire` | frames as records, symbolic keys, tags and ciphertexts, the build, parse and verify functions |
| `SessionModel` | every handler of the server as a function from world to world, and runs of events |
| `SessionServer` | the server as objects: two indices that share mutable states; each method refines a function of `SessionModel` |
| `SessionInvariants`, `SessionRuns` | what every step and every run keeps, with atomic handlers |
| `SessionAnswers` | what each message does, told from the message and the state it meets; what a ready session owes its readiness to |
| `LockSteps`, `LockAgreement` | the same table with the sections of `connMu` and `sidMu`, and single assignments, as interleaved steps |
| `LockClose` | closed connections at lock granularity: which of them can still have a state |
| `LockSimulation` | the two granularities compared: every run with atomic handlers is one of the interleavings |
| `Handshake` | the Windows client and the server as one machine over two FIFO streams, amid any other traffic |
| `HandshakeRuns` | honest handshakes of either version on every schedule: never failing, never stuck, done exactly when all moves are made |
| `SecureClient` | the Windows client's methods: handshake, sequence numbers, the split between TCP and UDP |
| `Framing`, `WriteLock` | length-prefixed frames on a byte stream; several senders under one write lock |
| `Policy`, `ProbeClient` | the UDP/TCP policy engine, and the request loop that drives it |
| `Mux` | streams with bounded queues that drop the newest, with atomic operations and with the steps between their locks |
| `Rows`, `PanelStore` | in-place upsert and delete on a slice; the store in memory and on disk |
| `Sizes` | text lengths of frames, and the payloads and settings for which everything fits |

Cryptography is symbolic: two tags, keys or ciphertexts are equal only when built from the same inputs, and a
shared secret is an unordered pair (section 6.1 of RFC 7748). Clock reads, random values and the outcome of
each I/O call are inputs of the step that uses them. A session id may be `""`, as when the random source
fails; that ids are fresh is an assumption of exactly the statements that name it, and where it decides, the
statement is an equivalence.

Two granularities are kept apart; a statement of `SessionInvariants`, `SessionRuns`, `SessionAnswers`,
`SessionServer`, `Handshake` and `HandshakeRuns` is about atomic handlers, one of `LockSteps`, `LockAgreement` and `LockClose`
about every interleaving of the sections between locks. They differ in two places:

- Atomic, the two indices are each other's inverse if and only if ids are fresh (`RunKeepsAgreementIff`).
  Interleaved, with no assumption at all, a bound id still leads to a ready v2 session that carries it
  (`LockSteps.RunKeepsInv`); but with fresh ids the indices agree at rest if and only if no handler bound its id
  after the sweep had taken its state (`RunAgreesAtRestIff`), the id then stays bound for good
  (`OrphanForever`), and a run from the empty table does it (`LateBindingHappens`).
- Atomic, a connection the server closed never has a state again (`NothingAfterClose`). Interleaved, that holds
  for one its own handler closed, whenever that handler is between frames (`FailedStaysOut`). The sweep removes
  states first and closes connections later; one it closed has a state at rest if and only if a frame came in
  between and was given a new one (`ClosedWithStateIff`), and a run from the empty table does it
  (`ClosedWithStateHappens`).

Where the code does something a reader may not expect, the model follows the code:

- The timestamp check negates in 64 bits, so the one timestamp that lies 2^63 before the clock passes (`TimestampAccepted`).
- `ReportUDPHealthy` computes the profile before it switches back to UDP, so the profile can lag (`ProfileIsCurrentIff`).
- The first request of a session can leave UDP although TCP answered it, because a failure of a session before still counts (`FirstRequestCanLeaveUDP`; exactly when: `AnsweredTickLeavesUDPIff`, `SessionLeavesUDPOnlyAtTheEndIff`).
- A peer's hangup closes a connection but leaves its state to the sweep; a failed reply removes the state but leaves the connection open.
- Push looks a stream up and sends on it in two steps; closed in between, the send panics (`PushCanPanic`; exactly when: `SendPanicsIffClosedInGap`).
- A failed save keeps the change in memory, so memory and disk differ until the next save that works; a save that fails only in closing the file has written the change all the same (`FailureKeepsFileIff`).

## Model

| member | source | states |
|---|---|---|
| Wire.SharedSecretCommutes | internal/secureproto/keys.go:51-65 | the two ends of a key exchange derive the same secret |
| Wire.SharedSecretIsThePair | internal/secureproto/keys.go:51-65 | two exchanges share a secret if and only if they are between the same two keys |
| Wire.TimestampAccepted | internal/secureproto/handshake.go:99-106 | with 64-bit arithmetic, a timestamp passes if and only if it is within the skew, or lies exactly 2^63 seconds before the clock |
| Wire.HelloRoundTrip | internal/secureproto/handshake.go:40-97 | every hello the client builds parses to its own fields, with "v1" for an empty version, and authenticates exactly when the server has the same pre-shared key or none |
| Wire.DataRoundTrip | internal/secureproto/datagram_v2.go:19-69 | frames and datagrams give back payload and header under their own key and under no other; the short header parse agrees with the full parse; a datagram without session id never parses |
| SessionInvariants.StepKeepsInv | internal/server/server_secure.go:15-123 | every step of every kind keeps the phase invariant of every state (never both ready and awaiting; the pending ticket is the challenge's; tunnel, address and id only on ready sessions), every bound id on a state that carries it, and no state on a connection the server closed; atomic handlers |
| SessionInvariants.RunKeepsInv | internal/server/server_sessions.go:11-109 | the same over every run |
| SessionInvariants.BindKeepsCompleteIff | internal/server/server_sessions.go:84-100 | binding keeps every id-carrying state bound if and only if the id is empty or unbound; removing the new state afterwards does not repair it |
| SessionInvariants.AuthKeepsAgreementIff | internal/server/server_secure.go:98-123 | an auth frame keeps the indices complete if and only if it is refused or its id is fresh, whether or not the reply can be written |
| SessionInvariants.StepKeepsAgreementIff | internal/server/server_sessions.go:11-109 | any step keeps exact agreement of the two indices if and only if an id it hands out is fresh |
| SessionInvariants.RunKeepsAgreementIff | internal/server/server_sessions.go:11-109 | the indices agree after every step of a run if and only if every id the run hands out is fresh when handed out |
| SessionInvariants.AgreementIsExact | internal/server/server_sessions.go:84-109 | in agreement, an id is bound to a connection if and only if that connection's state carries that id and it is not empty |
| SessionInvariants.UdpFrame | internal/server/server_udp_secure.go:10-60 | a datagram changes at most the one state its id names, and of that only last-seen, address and tunnel flag, which never goes back |
| SessionInvariants.SweepKeepsInv | internal/server/server_sessions.go:53-82 | a sweep keeps the invariant and the agreement of the indices |
| SessionRuns.TcpIsLocal | internal/server/server_secure.go:15-191 | a TCP frame touches no other connection, writes at most one output, to its own connection while open, and data only on a ready session under its own key |
| SessionRuns.StepMovesForward | internal/server/server_secure.go:33-123 | while a connection keeps its state, key and version are fixed, ready stays ready with the same id, and it never awaits a proof again, so hello and proof succeed at most once |
| SessionRuns.StepWritesCorrectly | internal/server/tunnel_types.go:16-49 | every step of every kind writes at most one output, never to a closed connection, and data only under the key of the ready session whose connection or bound id it names |
| SessionRuns.NothingAfterClose | internal/server/server_sessions.go:24-38 | with atomic handlers, sweeps included: once the server closed a connection, no later run, whatever frames its read loop still delivers, gives it a state or writes to it |
| SessionRuns.UntouchedIsSwept | internal/server/server_sessions.go:53-82 | a connection nobody touches is gone from both indices once the run contains a sweep later than its last use plus the idle limit |
| SessionRuns.IdleBound | internal/server/server_sessions.go:40-82 | with a sweep every 15 seconds, in whatever phase, it is gone within the idle limit plus one tick |
| SessionRuns.NeverSweptIffKeptAlive | internal/server/server_sessions.go:53-82 | over a whole run no sweep removes a connection if and only if each sweep comes within the idle limit of the last touch |
| SessionAnswers.SizeIsGuarded | internal/server/server_secure.go:15-31 | an empty frame or one over the limit closes the connection, takes it out of both indices and says why |
| SessionAnswers.PlainEcho | internal/server/server_secure.go:20-27 | without a private key a frame within the limit is answered in the clear with "dsp-ok:", itself and zeros, and no state is kept |
| SessionAnswers.PlainDatagramEcho | internal/server/server_udp_secure.go:18-23 | the same for a datagram |
| SessionAnswers.HelloOutcome | internal/server/server_secure.go:50-96 | a first frame is accepted if and only if it has a key and a 16-byte nonce, a timestamp in the window and a tag over exactly these fields, and the answer can be written; the state and the challenge or acknowledgement are then spelled out; any other first frame closes the connection with its reason |
| SessionAnswers.ProofOutcome | internal/server/server_secure.go:98-123 | a connection awaiting the proof becomes ready if and only if the frame is the proof over its own key and ticket and the answer can be written: bound, answered; any other frame closes it and leaves it in neither index |
| SessionAnswers.DataOutcomeV2 | internal/server/server_secure.go:169-191 | every frame on a ready v2 session: refused with its reason unless it opens under the session key within the limit; to the tunnel, and nowhere else, if and only if there is one and it is an IP packet on channel 1; otherwise answered with "dsp-ok:", itself and zeros, sealed, same channel, next number, mode by table |
| SessionAnswers.DataOutcomeV1 | internal/server/server_secure.go:141-167 | the same for v1, without channel and number |
| SessionAnswers.DatagramOutcome | internal/server/server_udp_secure.go:10-60 | a datagram that names no bound id changes nothing; one that does refreshes clock and address before it is opened, and then is dropped, confirms a binding, goes to the tunnel or is answered where it came from, each exactly when |
| SessionAnswers.RelayOutcome | internal/server/tunnel_types.go:34-47 | a packet from the tunnel is sent exactly once if and only if one way is open: as a datagram to the recorded address under the session's id, and on the connection when that does not work; sealed under the session's key, under v2 on channel 1 |
| SessionAnswers.SweepOutcome | internal/server/server_sessions.go:53-82 | a sweep takes out exactly the states last seen longer ago than the limit and the ids they carry, and closes exactly their connections |
| SessionAnswers.ReplyIs | internal/server/server.go:136-141 | the decorated reply, byte by byte |
| SessionAnswers.ModeIs | internal/secureproto/policy_engine.go:3-15 | the traffic mode by table |
| SessionAnswers.ProfileModeIs | internal/secureproto/policy_engine.go:17-35 | the modes each profile asks for |
| SessionAnswers.StepBecomesReady | internal/server/server_secure.go:108-116 | a step makes a v2 session ready only by bringing in the proof for its key on its own connection |
| SessionAnswers.ReadyOwesProof | internal/server/server_secure.go:98-116 | over every run, a v2 session that is ready at the end was so from the start or the run brought that proof in |
| SessionAnswers.StateOwesHello | internal/server/server_secure.go:50-77 | over every run, every state was begun by a good hello on its own connection and holds that hello's key |
| SessionAnswers.ReadySessionIsProved | internal/server/server_secure.go:50-123 | so every ready v2 session of a server that began with none has seen both, for its key, on its own connection |
| SessionServer.Server.constructor | internal/server/server.go:42-62 | a new server has empty indices |
| SessionServer.Server.SetUDPSrv | internal/server/server.go:143-147 | announces the UDP server and changes nothing else |
| SessionServer.Server.GetConnState | internal/server/server_sessions.go:11-22 | returns the state object the index holds, or stores a fresh one; the abstract step of the model |
| SessionServer.Server.RemoveConnState | internal/server/server_sessions.go:24-32 | takes the state out of the connection index and its id out of the other; sharing between the indices is kept |
| SessionServer.Server.FailConn | internal/server/server_sessions.go:34-38 | error frame if it can be written, close, remove: the abstract step of the model |
| SessionServer.Server.DropIdleConnStates | internal/server/server_sessions.go:53-82 | the three loops together remove exactly the states last seen before the cutoff, their ids, and close their connections |
| SessionServer.Server.BindSessionID | internal/server/server_sessions.go:84-91 | makes the session index share the state object; an empty id does nothing |
| SessionServer.Server.UnbindSessionID | internal/server/server_sessions.go:93-100 | removes exactly the given id |
| SessionServer.Server.FindStateBySessionID | internal/server/server_sessions.go:102-109 | returns the bound object, or null exactly when the id is not bound |
| SessionServer.Server.FindSecureConnState | internal/server/server_sessions.go:111-120 | returns some ready state that carries a tunnel, or null exactly when there is none |
| SessionServer.Server.HandleTCPPayload | internal/server/server_secure.go:15-40 | on shared objects, does to the abstract world exactly what the model's TCP step does, and keeps the invariant |
| SessionServer.Server.HandlePreSecureFrame | internal/server/server_secure.go:42-48 | dispatches as the model does |
| SessionServer.Server.HandleHelloFrame | internal/server/server_secure.go:50-96 | on shared objects, assignment by assignment: every refusal in order, the challenge or the acknowledgement, and the removal when it cannot be written, exactly as the abstract step |
| SessionServer.Server.HandleAuthV2Frame | internal/server/server_secure.go:98-123 | every refusal in order; an accepted proof makes the shared object ready, binds it under its new id and answers, or unbinds and removes it, exactly as the abstract step |
| SessionServer.Server.HandleDataFrame | internal/server/server_secure.go:133-139 | dispatches by version as the model does |
| SessionServer.Server.HandleDataFrameV1 | internal/server/server_secure.go:141-167 | every refusal in order, the packet for the tunnel, or the answer under the session key, exactly as the abstract step |
| SessionServer.Server.HandleDataFrameV2 | internal/server/server_secure.go:169-191 | the same for v2, with the answer's sequence number and mode |
| SessionServer.Server.HandleUDPPayload | internal/server/server_udp_secure.go:10-60 | reaches the shared state through the session index and does what the model's datagram step does |
| SessionServer.Server.RelayPacket | internal/server/tunnel_types.go:16-49 | picks a tunnel session if there is one and sends over UDP, or over TCP when UDP is not there or fails, as in the model |
| SessionServer.Server.EndReadLoop | internal/transport/tcp/tcp.go:43-55 | the returning read loop closes its connection and leaves its state in the indices |
| SessionServer.Server.ServeEvents | internal/server/server.go:64-134 | the objects follow the model through any run of TCP frames, datagrams, relayed packets, sweeps and hangups |
| LockSteps.StepKeepsInv | internal/server/server_secure.go:112-116 | at lock granularity each single step, whatever the other goroutines are in the middle of, keeps every bound id on a ready v2 object that carries it |
| LockSteps.RunKeepsInv | internal/server/server_sessions.go:63-100 | the same over every interleaving, with no assumption on ids |
| LockAgreement.StepOrphanFreeIff | internal/server/server_sessions.go:53-100 | a step leaves the first id bound to a state nobody will unbind if and only if it is a binding after the sweep took the state |
| LockAgreement.StepKeepsFreshInv | internal/server/server_sessions.go:11-100 | with a fresh id every step keeps claims unique, every indexed state bound or about to be, and everything owed an unbinding out of the index |
| LockAgreement.QuiescentAgreementIff | internal/server/server_sessions.go:11-109 | between handlers the two indices agree exactly if and only if there is no such orphan |
| LockAgreement.RunAgreesAtRestIff | internal/server/server_sessions.go:11-109 | with fresh ids, an interleaving that has come to rest has the indices in exact agreement if and only if it bound no state late |
| LockAgreement.OrphanForever | internal/server/server_sessions.go:24-100 | after a late binding the id stays bound to the abandoned state for the rest of every run |
| LockAgreement.LateBindingHappens | internal/server/server_secure.go:98-123 | a run from the empty table, with fresh ids, a clock that only goes forward, no hangup and no failed frame, ends at rest with such an orphan |
| LockAgreement.HelloAssignmentsAddUp | internal/server/server_secure.go:75-90 | the single assignments of an accepted hello add up to what the atomic handler leaves |
| LockClose.StepKeepsClosed | internal/server/server_sessions.go:34-38 | each single step of any goroutine keeps a closed connection either without a state or with one its handler is about to remove |
| LockClose.FailedStaysOut | internal/server/server_sessions.go:24-38 | once a handler has closed its own connection, then on every interleaving from there the connection has no state whenever that handler is between frames |
| LockClose.StepKeepsGapInv | internal/server/server_sessions.go:53-82 | each single step keeps: states given between the sweep's removal and its close sit on connections closed or about to be, and any other state on a closed connection is on its way out |
| LockClose.ClosedWithStateIff | internal/server/server_sessions.go:63-81 | on every interleaving without a hangup of the peer, at rest, a connection's state is on a closed connection if and only if a frame brought it between the sweep's removal and its close |
| LockClose.ClosedWithStateHappens | internal/server/server_sessions.go:11-22 | a run from the empty table, without hangup or failed frame, ends at rest with a state on a closed connection |
| LockSimulation.DisabledSweep | internal/server/server_sessions.go:54-56 | without an idle limit a sweep does nothing |
| LockSimulation.StepRealised | internal/server/server_sessions.go:11-100 | each atomic event, from any table at rest that holds the same as the world, is a sequence of lock-granularity steps that ends at rest holding the same as the world after the event |
| LockSimulation.AtomicRunsAreInterleavings | internal/server/server.go:64-134 | every run with atomic handlers from the start is realised by some interleaving with the same states, ids and closed connections |
| Handshake.Agreement | internal/winclient/secure_client.go:78-150 | on every run, amid any other traffic, if the client's handshake returned key k and id s, the server, as long as it keeps a state for the connection, is ready with k and (v2) s, bound under s when the indices are complete |
| Handshake.PlayKeepsSysInv | internal/secureproto/handshake_v2.go:37-101 | every frame the server ever sent to the client is vouched for by the state it still has; what the client accepted is one of those frames |
| Handshake.OnlyHelloRevives | internal/server/server_secure.go:42-54 | a connection without a state gets one that lasts only from a hello |
| Handshake.HonestHelloAcceptedIff | internal/server/server_secure.go:50-77 | a client holding the matching keys is accepted if and only if its timestamp passes, the pre-shared keys match or the server has none, and a nonce can be drawn; the server then holds the client's key |
| Handshake.HonestV2Completes | internal/winclient/secure_client.go:115-150 | on the shortest schedule such a v2 client completes the handshake (every other schedule: HandshakeRuns): both ends ready with the same key and the id the server drew |
| HandshakeRuns.SparedStays | internal/server/server_udp_secure.go:10-60 | any event but a frame or hangup of the connection, or a sweep that finds it idle, leaves its unfinished state exactly as it is |
| HandshakeRuns.MoveInPhase | internal/winclient/secure_client.go:78-150 | every move of an honest handshake, or of the traffic around it, keeps it in its phase or takes it one further |
| HandshakeRuns.HonestCompletesIff | internal/winclient/secure_client.go:78-150 | on every schedule with any sparing traffic around it, an honest client of either version never fails, is done if and only if all its moves (five for v2, three otherwise) are made, and then the server is ready with its key and id |
| HandshakeRuns.HonestGoesOn | internal/winclient/secure_client.go:78-150 | and until then its next move can be made |
| SecureClient.SecureTCPClient.DoHandshake | internal/winclient/secure_client.go:78-113 | for any frames, read failures and write failures: the key returned, the id recorded and the frames written are those of the client machine |
| SecureClient.SecureTCPClient.DoHandshakeV2 | internal/winclient/secure_client.go:115-150 | the v2 half of it, and the id is untouched on every failure |
| SecureClient.HandshakeSucceedsIff | internal/winclient/secure_client.go:78-150 | whatever arrives, the client accepts a key and an id if and only if it could write its frames and read a challenge with a 16-byte nonce and the ready frame tagged with the key that follows (or, not v2, the acknowledgement so tagged) |
| SecureClient.HandshakeSends | internal/winclient/secure_client.go:79-133 | what it sends: its hello with all its fields, and under v2 the proof over the ticket it was given, exactly when |
| SecureClient.HandshakeIsPlay | internal/winclient/secure_client.go:78-150 | that machine is the client of the product, whatever reads and writes fail: its moves there give the same result and the same frames |
| SecureClient.SecureTCPClient.NextSeq | internal/winclient/secure_client.go:383-385 | the counter advances by one, modulo 2^32, and its new value is the number |
| SecureClient.SecureTCPClient.SendEncryptedPayload | internal/winclient/secure_client.go:321-351 | a successful v2 send puts its payload, under the one number it drew, on exactly one transport, a failed one on none; a v1 send uses TCP and draws no number |
| SecureClient.SecureTCPClient.PumpTunnel | internal/winclient/secure_client.go:206-231 | the nonempty packets go out in order, each once, under consecutive numbers on channel 1, up to the first failure; each on one transport, under v1 on TCP; with UDP healthy the multiples of four on TCP and the rest on UDP |
| SecureClient.PumpedShares | internal/winclient/secure_client.go:321-337 | of what was pumped, the transports' shares add up, and by the rule TCP has the count of multiples of four |
| SecureClient.TcpShare | internal/winclient/secure_client.go:373-385 | any 4k consecutive numbers hold exactly k for TCP, also across the 2^32 wrap |
| SecureClient.SecureTCPClient.InitUDPPlane | internal/winclient/secure_client.go:387-402 | when wanted, dials and sends one bind datagram under the next number; else does nothing |
| SecureClient.BindIsAnswered | internal/server/server_udp_secure.go:31-47 | the client's bind datagram makes the server record the address and answer with a datagram the client can open, numbered next |
| Framing.FrameLayout | internal/transport/tcp/tcp.go:60-71 | on the wire: the length high byte first, then the payload as it is |
| Framing.ParseAppend | internal/transport/tcp/tcp.go:45-87 | after whole frames the reader is in step again: any tail parses as if it came alone |
| Framing.RoundTripIff | internal/transport/tcp/tcp.go:60-87 | for payloads WriteFrame takes, reading back gives the same list if and only if none is empty |
| Framing.Reassemble | internal/transport/tcp/tcp.go:73-87 | for any bytes at all, frames delivered and bytes left, written again, are the bytes received |
| Framing.CutInside | internal/transport/tcp/tcp.go:73-87 | whole frames and part of another deliver exactly the whole ones |
| Framing.PrefixDeliversWholeFrames | internal/transport/tcp/tcp.go:45-87 | every prefix of a stream delivers exactly the frames complete in it |
| Framing.WriteFrame | internal/transport/tcp/tcp.go:60-71 | writes the encoded frame, or when the network fails a prefix of it; too large a payload writes nothing |
| Framing.ReadFull | internal/winclient/frame_io.go:16-27 | fills the buffer with the next bytes however they are split into segments, or fails at the end of the stream |
| Framing.ReadFrame | internal/winclient/frame_io.go:12-29 | the next frame of the stream, whatever the segmentation; none for an empty or incomplete one |
| Framing.ServeConnection | internal/transport/tcp/tcp.go:43-55 | the read loop ends and has handed over exactly the frames of the stream |
| WriteLock.StepKeepsLineOk | internal/server/server_secure.go:193-215 | under the lock each step leaves whole frames in lock order and at most one unfinished frame |
| WriteLock.PeerReadsWhatWasSent | internal/server/tunnel_types.go:44-47 | for any senders with any payloads, on every interleaving, with writes failing anywhere, the peer reads exactly the frames whose sends succeeded: of each sender its fitting payloads from the first on, in order, and all it no longer has while the connection is whole |
| WriteLock.WithoutLock | internal/transport/tcp/tcp.go:65-70 | two interleaved sends without the lock are not read back |
| Policy.Engine.constructor | internal/policy/policy.go:21-27 | the engine starts clear, in the given mode, reading stealth |
| Policy.Engine.ReportUDPFault | internal/policy/policy.go:33-41 | the object follows the abstract step whose runs the lemmas below bound: a failure more, the profile from that, and from three failures on TCP, stamped, once two seconds have passed |
| Policy.Engine.ReportUDPHealthy | internal/policy/policy.go:43-51 | the object follows the abstract step: counters cleared, the profile from that, and then UDP, stamped, once ten seconds have passed |
| Policy.Engine.Observe | internal/policy/policy.go:53-73 | the object follows the abstract step in both outcomes, with the profile computed after any switch |
| Policy.Engine.UpdateProfile | internal/policy/policy.go:79-89 | sets the profile to the function of the other fields |
| Policy.ReachableKeepsInv | internal/policy/policy.go:33-89 | in every reachable state the two counters are equal, recovery means at least two failures in a row, aggressive means UDP with a short round trip |
| Policy.ProfileIsCurrentIff | internal/policy/policy.go:43-51 | after a call the profile is the function of the other fields except exactly when a health report has just switched to UDP with a short round trip on record |
| Policy.FailureSwitchesIff | internal/policy/policy.go:63-70 | a failed observation leaves UDP, and stamps, if and only if it is not the first in a row and the last switch is over two seconds old |
| Policy.AnswerReturnsIff | internal/policy/policy.go:54-63 | an answered observation on TCP returns to UDP, and stamps, if and only if the round trip then on record is positive and under 250 ms and the last switch over eight seconds old |
| Policy.ConfirmedModeStays | internal/policy/policy.go:53-73 | an answer on UDP and a failure on TCP keep mode and stamp |
| Policy.ObserveRecords | internal/policy/policy.go:53-89 | what an observation leaves in the counters, the round trip and the profile, the profile both ways |
| Policy.FaultSwitchesIff | internal/policy/policy.go:33-41 | a reported fault moves to TCP and stamps exactly from the third on and two seconds after the last stamp |
| Policy.HealthSwitchesIff | internal/policy/policy.go:43-51 | a health report returns to UDP and stamps exactly on TCP ten seconds after the last stamp |
| Policy.ObserveRunsDoNotFlap | internal/policy/policy.go:53-73 | over any run of observations, switches alternate and take at least the sum of their delays |
| Policy.SwitchesTakeTime | internal/policy/policy.go:53-73 | from UDP, k switches take more than 2*ceil(k/2) + 8*floor(k/2) seconds |
| Policy.StampsAreApart | internal/policy/policy.go:33-73 | in any mix of calls successive stamps are more than two seconds apart, and every switch stamps |
| ProbeClient.Client.SendRequest | internal/client/client.go:173-208 | one number per request, shared by the datagram and the TCP frame it falls back to; the answer, the policy and what each transport carried |
| ProbeClient.Client.RunTick | internal/client/client.go:79-88 | the outcome of a request is reported once more, with a zero round trip when it failed |
| ProbeClient.Client.RunSession | internal/client/client.go:75-90 | the loop ends with the ticks or at the first failed request, with the policy that leaves |
| ProbeClient.RequestAnsweredIff | internal/client/client.go:178-207 | a request is answered over UDP, with what the datagram's answer holds, exactly when UDP is in use and that opens; failing that over TCP, with what its answer holds, exactly when that opens |
| ProbeClient.TickIsRecorded | internal/client/client.go:80-88 | the failures a tick adds and the round trip it records |
| ProbeClient.TickReturnsToUDPIff | internal/client/client.go:80-88 | a tick that starts on TCP returns to UDP if and only if it is answered, quickly, eight seconds after the last switch |
| ProbeClient.SessionEndsAtFailure | internal/client/client.go:75-90 | a session of first and then more ticks is the first ticks, and the others only when none of them fails |
| ProbeClient.SuccessClearsFailures | internal/client/client.go:80-87 | every answered tick leaves both counters at zero |
| ProbeClient.AnsweredTickLeavesUDPIff | internal/client/client.go:173-208 | from every state of the policy, a request that is answered leaves UDP if and only if its datagram failed, a failure was already counted, the last switch was over two seconds old, and the answer's round trip does not bring it back |
| ProbeClient.FailedTickLeavesUDPIff | internal/client/client.go:80-86 | from every state of the policy, when a failed request leaves UDP |
| ProbeClient.ClearSessionLeavesUDPOnlyAtTheEnd | internal/client/client.go:75-90 | from clear counters no tick but the one that ends the session leaves UDP |
| ProbeClient.SessionLeavesUDPOnlyAtTheEndIff | internal/client/client.go:75-90 | in every session from every state of the policy, no answered request leaves UDP if and only if the first does not |
| ProbeClient.AfterFirstSuccess | internal/client/client.go:75-90 | so after the first answered request of any session, from any reachable policy, only the request that ends it can leave UDP |
| ProbeClient.FirstRequestCanLeaveUDP | internal/client/client.go:51-90 | the first can: after a session without UDP whose only request fails, the next session's first request loses its datagram, is answered over TCP, and leaves UDP |
| Mux.StepKeepsInv | internal/mux/mux.go:27-57 | every step keeps, for every stream, received then buffered equal to the pushes taken, in order, with counts that add up and at most 32 waiting, and keeps ids and table in step |
| Mux.RunConserves | internal/mux/mux.go:19-57 | the same over every run |
| Mux.PushDropsNewestIff | internal/mux/mux.go:36-47 | a push is dropped if and only if 32 payloads wait, and then it is the new one |
| Mux.ReceiveTakesOldest | internal/mux/mux.go:27-34 | a read takes the oldest payload that waits, and nothing when none does |
| Mux.EventsAreLocal | internal/mux/mux.go:27-57 | an event touches no stream but its own; what a new stream and a close do to the table |
| Mux.IdsAreDistinctUntilWrap | internal/mux/mux.go:27-34 | two streams share an id if and only if their numbers are a multiple of 2^32 apart; before the wrap ids start at 2 |
| Mux.ClosedTakesNothing | internal/mux/mux.go:49-57 | a closed stream takes no push and loses nothing that waits |
| Mux.FineStepKeepsInv | internal/mux/mux.go:27-57 | every step between the locks (register, look up, send, receive, unlist, close) keeps conservation and order, and that no stream is closed twice |
| Mux.FineRunConserves | internal/mux/mux.go:19-57 | the same over every interleaving of pushes, reads and closes |
| Mux.SendPanicsIffClosedInGap | internal/mux/mux.go:36-57 | a push that found its stream panics at the send if and only if the stream's close is among the steps since the lookup; otherwise it offers its payload |
| Mux.PushCanPanic | internal/mux/mux.go:36-57 | a run of five steps from a new session panics |
| Mux.SingleStepsAreAtomic | internal/mux/mux.go:27-57 | a registration and a read are one step at either grain, and an unknown id is no step |
| Mux.UninterruptedIsAtomic | internal/mux/mux.go:36-57 | lookup and send in a row are the atomic push, unlist and close the atomic close |
| Mux.Channel.TrySend | internal/mux/mux.go:43-46 | the non-blocking send on a channel of 32 |
| Mux.Session.NewStream | internal/mux/mux.go:27-34 | a fresh channel under the next id |
| Mux.Session.Push | internal/mux/mux.go:36-47 | offers to the stream's channel, and to no other |
| Mux.Session.Receive | internal/mux/mux.go:27-34 | the reader's end takes the oldest payload |
| Mux.Session.CloseStream | internal/mux/mux.go:49-57 | closes the stream and takes its id out of the table |
| Rows.UpsertKeepsPositions | internal/panel/store.go:134-145 | every id stays where it was, and a new one goes to the end |
| Rows.UpsertKeepsUnique | internal/panel/store.go:160-171 | unique ids stay unique |
| Rows.UpsertIsUpdate | internal/panel/store.go:134-145 | seen as a map from ids, upsert is an update |
| Rows.DeleteIsRemoval | internal/panel/store.go:147-158 | seen as a map from ids, delete is a removal |
| Rows.DeleteUndoesUpsert | internal/panel/store.go:134-158 | deleting what was upserted leaves what deleting before would have left |
| Rows.DeleteKeepsUnique | internal/panel/store.go:173-184 | delete keeps ids unique and only rows of other ids |
| Rows.Table.Upsert | internal/panel/store.go:134-145 | the loop over the slice replaces the first row of that id in place, or appends |
| Rows.Table.Append | internal/panel/store.go:143 | appends in place or into a larger array |
| Rows.Table.Delete | internal/panel/store.go:147-158 | compacting within the backing array it reads from is the order-preserving filter |
| Rows.Table.Copy | internal/panel/store.go:124-125 | an array of its own with the same rows |
| PanelStore.DefaultsAreFixpoint | internal/panel/store.go:53-105 | filling in defaults leaves nothing to fill in, leaves alone exactly the settings with nothing to fill in, and is idempotent |
| PanelStore.DefaultsFieldByField | internal/panel/store.go:53-105 | each blank text or zero number becomes its own default, every other field and every switch stays as given, and the two transports are turned on exactly when both are off |
| PanelStore.UpdateKeepsWhatIsSet | internal/panel/store.go:186-192 | so for updated settings, which touch no list |
| PanelStore.LoadKeepsWhatIsSet | internal/panel/store.go:32-51 | so for loaded ones; the lists as saved, the defaults for an empty file, refusal of one that does not decode |
| PanelStore.ChangeIsLocal | internal/panel/store.go:134-192 | an operation changes the record it names, and no other record, list or setting |
| PanelStore.NextKeepsInv | internal/panel/store.go:32-51 | over operations, failed saves and restarts, the settings in memory have nothing left for the defaults to fill in |
| PanelStore.ReloadIsExact | internal/panel/store.go:36-50 | opening the file after a successful save gives back the memory exactly |
| PanelStore.SuccessAgrees | internal/panel/store.go:107-119 | after every operation that returns no error the file holds the memory |
| PanelStore.FileHoldsLastSuccess | internal/panel/store.go:134-192 | when failing saves leave the file alone, over every run with restarts the file is the memory at the last success, so the next success persists what a failed save lost |
| PanelStore.FailedSaveIsMadeUp | internal/panel/store.go:107-192 | a change stays in memory whatever becomes of its save, and the next save that works writes it too |
| PanelStore.FailureKeepsFileIff | internal/panel/store.go:107-119 | a failed save leaves what the file loads as unchanged if and only if it did not touch the file, emptied one that loaded as the defaults, or failed in closing a file that already loaded as the new state |
| PanelStore.RunKeepsUnique | internal/panel/store.go:134-184 | ids stay unique over every run |
| PanelStore.Store.constructor | internal/panel/store.go:17-25 | a store with no rows and the default settings |
| PanelStore.Store.NewStore | internal/panel/store.go:17-30 | null exactly when the file cannot be decoded or cannot be created; otherwise a store that holds what the file does |
| PanelStore.Store.Load | internal/panel/store.go:32-51 | a missing file is created, an empty one leaves the defaults, a saved one is taken with its gaps filled, and one that does not decode is an error that leaves the defaults |
| PanelStore.Store.ApplyDefaults | internal/panel/store.go:53-105 | in place, the settings that DefaultsFieldByField spells out |
| PanelStore.Store.Save | internal/panel/store.go:107-119 | the file holds the memory after a success, and what it held, nothing, a cut text or, if only closing failed, the memory after a failure |
| PanelStore.Store.Apply | internal/panel/store.go:134-192 | memory changes first and keeps the change, then the save |
| PanelStore.Store.Snapshot | internal/panel/store.go:121-132 | the state on arrays of its own |
| PanelStore.Store.ApplyAll | internal/panel/store.go:121-192 | no run of later operations changes an earlier snapshot |
| Sizes.Base64Length | internal/secureproto/cipher.go:26-27 | n bytes take 4*ceil(n/3) characters |
| Sizes.TextLengths | internal/secureproto/frame_v2.go:31-40 | the length of a frame's and a datagram's text from the lengths of its parts |
| Sizes.ReceivedWholeIff | internal/transport/udp/udp.go:26-47 | with padding up to 64 and a 16-character id, every datagram of a payload length fits the 2048-byte buffer if and only if the length is at most 1328 |
| Sizes.AllRepliesFitIff | internal/server/server.go:136-141 | the decorated answer to every v2 request that itself fits a frame and passes the size checks fits a frame if and only if MaxPacketSize is at most 48929, or 48961 without obfuscation |
| Sizes.AllRequestsPassIff | internal/server/server_secure.go:28-31 | every v2 frame of a legal payload passes the first size check if and only if MaxPacketSize is at least 38 |

## Left out

- Sockets, listeners, deadlines, goroutine start and stop, logging, jitter: I/O calls are inputs that succeed or fail; no deadline fires inside a frame.
- AES-GCM, HMAC, SHA-256, X25519, random sources: symbolic, as said above. Key files and key generation are not modelled.
- JSON text: frames are records; a text that does not decode is `Garbage`. Case-insensitive keys, repeated keys and unknown fields are not modelled. Padding appears only in lengths.
- `tcp.Client.Receive`, whose buffered reader is made anew for each call and loses what it read ahead: the stream theorems are about the server's one reader and the Windows client's unbuffered reads.
- The probe client's handshake, which uses the three results of `VerifyReady` as one boolean: the handshake modelled is the Windows client's.
- v1 traffic of the probe client, which always sends v2 frames; the Windows client's reading loops and its probe mode.
- `obfs.ApplyPadding` and `randomPadding`: how many zeros or random bytes are added is an input.
- Panel HTTP handlers, cookies and the web interface; TUN devices, routes, Docker and systemd files.
- `internal/handshake`, `internal/tun`, `internal/proto`: placeholders, or helpers nothing here uses.
- The policy's mode as free text: only `udp` and `tcp` are modelled; counters are unbounded.
- SessionRuns.NothingAfterClose: about atomic handlers, sweeps included; what holds with the sweep's sections interleaved is in LockClose.
- LockSteps.RunKeepsInv: reads and single assignments of one state are atomic steps, so torn reads of a field and the memory order of unsynchronised fields are not modelled; the relay, which only reads the table, and the frames written are left out at this granularity.
- Rows.Table.Append: how much capacity a grown slice gets is fixed here; Go leaves it open.
- PanelStore.ReloadIsExact: an absent list is told from an empty one only in the file, and keys a hand-edited file leaves out (they keep their default) are not modelled.
- WriteLock.PeerReadsWhatWasSent: handshake frames and error frames are written outside the lock and are not among its senders.
