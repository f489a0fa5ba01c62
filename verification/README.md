# Verified model of go-connect

go-connect carries TCP streams from a *connector*, through a *broker*, to a
*listener*. This project models the parts of it whose correctness does not show in
any single function and proves what they promise together:

* **The stream protocol.** `Listener.dfy` and `Connector.dfy` are step systems with
  one step per critical section, channel operation, socket operation or session
  send, taken by the message loops, the per-stream goroutines and the pumps
  (`Pump.dfy`) in any order. `Tunnel.dfy` joins them by two FIFO channels;
  `Overtaking.dfy` is about the listener against arbitrary peers, `Lifetime.dfy` builds
  whole streams from opening to end, `Ending.dfy` shows that none gets stuck, and
  `Shutdown.dfy` is about the closing of an end.
  `ListenerStreams.dfy` and `ConnectorStreams.dfy` hold the shared maps as mutable
  objects, each critical section a method that is shown to do what its step does; they
  are the imperative rendering of those steps and not results of their own.
* **The broker.** `Router.dfy` is the routing table and its class; `Broker.dfy` the life
  of all clients with one step per lock acquisition; `ClientConn.dfy` the recursive
  `Close`; `Relay.dfy` the relay loop, and all clients together with `Close` atomic.
  `Races.dfy` says exactly what interleaved closes can do, `Atomicity.dfy` that
  uninterrupted ones make the two systems agree on the table, and `LockRelay.dfy` what
  the relay loops do at the granularity of locks. `Admission.dfy` is about who gets in and
  how everyone gets out.
* **The encrypted session.** `Framing.dfy`, `Aead.dfy`, `KeyExchange.dfy`, `Session.dfy`
  and, for concurrent senders, `SendLock.dfy`. `Encoding.dfy` gives one marshaller, to
  show that the laws asked of marshalling can be met, and `Counting.dfy` the counting
  argument that no marshaller shortens everything. `Path.dfy` composes session, relay and
  session to the channel between the two ends of a tunnel, `Passage.dfy` sends a message
  through it, and `OverPaths.dfy` runs the two ends over such channels.
* **The supervisor.** `Reconnect.dfy` is the reconnect loop against a script of its
  surroundings, `Backoff.dfy` the delays it waits, `Draw.dfy` its random draw with the
  rounding of doubles.
* **Heartbeats.** `Heartbeat.dfy` is the timeout loop against the times at which a
  client was seen.

A run is a list of steps of any length; a step that is not enabled changes nothing, so
statements about `Exec(INIT, steps)` for all `steps` are statements about all runs and
all interleavings. What the environment decides (the outcome of a dial, a read, a
write, a send, a random draw, the clock) is an argument of the step.

## Main results

1. *Order and integrity of streams.* In every run of the whole tunnel the bytes
   written at one end of a stream are a prefix of the bytes read at the other, in both
   directions (`Tunnel.BytesArriveInOrder`), and nothing is missing once the stream is
   quiet (`Tunnel.QuietStreamIsComplete`). The listener alone does not guarantee this:
   it drains its buffer outside the lock, so for every pair of chunks there is a
   failure-free run in which the second is written first
   (`Overtaking.EagerPeerIsReordered`). Exactly: from a state in which the connection
   is published, no behaviour of the peer reorders the stream if and only if no byte of
   the buffer is left to drain or the message loop has ended
   (`Overtaking.OrderHangsOnTheBuffer`); and the connector's wait for the ack keeps that
   buffer empty in every run (`Tunnel.AckPrecedesData`).
   And streams do get through: for every id and any traffic in both directions there is
   a run that carries it whole and ends with both ends rid of the stream
   (`Lifetime.StreamsGetThrough`); no reachable state leaves a stream stuck
   (`Ending.NoStreamGetsStuck`), and an announced end is heard of (`Tunnel.EndIsHeard`).
2. *Conservation.* Against any peer the hand-over neither loses nor duplicates a chunk
   (`Listener.HandOverConserves`).
3. *Broker safety at lock granularity.* The routing table stays sound, removed clients
   stay out, capacity is respected (`Broker.RouterStaysSound`, `Broker.RemovedForGood`,
   `Broker.CapacityIsRespected`). Members have passed every check in that very run, whoever
   is turned away stays out, whoever may come in can, and everyone can leave
   (`Admission.MembersWereAdmitted`, `Admission.TurnedAwayForGood`,
   `Admission.AnyoneCanListen`, `Admission.EveryoneCanLeave`). Two things one would like are false at this
   granularity, each with a run that shows it and the condition under which it holds.
   A connector can be unlinked without being closed (`Races.OrphanIsReachable`): in every
   run `Close` reaches the partner it cuts off if and only if nobody links to the closing
   client between its GetPeer and its Remove (`Races.CloseReachesPeerExactly`), and a run
   without such links leaves no orphan (`Races.NoLateLinksNoOrphans`). A listener
   can get a second peer (`Races.RelinkIsReachable`): in every run it has at most one if
   and only if nobody links to it while some `Close` is about to close it
   (`Races.OnePeerExactly`), and then its link is a FIFO in both directions under every
   interleaving of the relay loops (`LockRelay.LinkIsAFifo`). When no `Close` is
   interrupted, the routing table is that of the system in which `Close` is one step
   (`Atomicity.UninterruptedRunsAreCoarse`, `ClientConn.ClientConn.Close`).
4. *The session.* Handshake, keys, nonces, encryption and framing compose to a lossless
   ordered channel (`Session.EndToEnd`); replayed, reordered or forged messages are never
   accepted out of place, so that any byte stream yields a prefix of what was sent
   (`Aead.ReplayAndReorderAreRejected`, `Session.TamperedStreamIsAPrefix`); concurrent
   senders are one sender (`SendLock.SendersAreSequential`); no key and nonce are used
   twice (`SendLock.NoNonceReuse`).
   Composed over two hops and the broker in between, failed writes and interleavings
   included, the messages of a stream that arrive at one end are a prefix of those sent at
   the other (`Path.PathIsAFifo`); and over channels that promise no more than this, the
   bytes of every stream still arrive in order (`OverPaths.PathsCarry`,
   `OverPaths.BytesArriveInOrder`).
5. *A defect made exact.* `Encrypt` and `WriteFrame` check the same limit of 2^20 bytes,
   but the second sees 28 bytes more. An envelope in between spends a nonce and is not
   written, after which the receiver rejects everything; the two ends stay in lockstep if
   and only if no envelope falls into that band
   (`Session.LockstepExactlyOutsideTheBand`). Every faithful marshaller has such envelopes
   on every stream (`Session.BandIsInhabited`); under protobuf all Data with a payload of
   2^20 - 18 bytes is one (`Session.LargeDataIsInBand`). Data of the pumps never is.
6. *Timing and retries.* `Reconnect.TraceLaw`, `Reconnect.ConnectBound`,
   `Reconnect.GivesUpExactly`, `Reconnect.NegativeMeansForever`, `Backoff.BaseIsGeometric`,
   `Backoff.TotalWaitBounds`, `Heartbeat.SilentClientIsClosed`,
   `Heartbeat.AnsweringClientStays`.

## Where the code and its documentation differ

* The design calls the 45 s timeout three missed heartbeats
  (`docs/plans/2026-02-28-mvp-design.md:206`). `lastSeen` is set before the heartbeat loop
  starts, so a client silent since then is closed at the third tick at the latest, with
  only two heartbeats sent (`Heartbeat.LateFirstAnswerIsFatal`, `Heartbeat.HeartbeatLoop`).
* The random draw of the backoff is documented to lie in [-1, 1). With the rounding of
  doubles exactly the 1024 largest 64-bit numbers give 1 (`Draw.DrawRange`); the bounds
  are proved for [-1, 1].
* The directional keys are said to be complementary. They are not when both public keys
  are equal, where both ends take the server's role (`KeyExchange.KeysAreComplementary`).

## What is assumed

* AES-GCM is any cipher with the laws of sections 5.1 and 5.2 of RFC 5116, X25519 any
  exchange symmetric as in section 6.1 of RFC 7748, HKDF any function of secret, salt and
  info that separates the two infos (RFC 5869), protobuf any marshaller with an inverse
  and a bounded overhead. `Aead.LawfulCipherExists`, `KeyExchange.LawfulSuiteExists` and
  `Session.FaithfulCodecExists` show that these laws contradict nothing, and
  `KeyExchange.CollisionlessSuiteExists` the same of the ideal suite that one theorem
  supposes.
* The ideal AEAD assumption (what opens was sealed by the holder of the key) is the
  hypothesis of the theorems that need it: `Unforged` for messages and for bytes, `Honest`
  for a hop.
* Fewer than 2^32 streams and fewer than 2^64 messages per session.

## Model

| member | source | states |
|---|---|---|
| `Tunnel.BytesArriveInOrder` | pkg/tunnel/connector.go:170-274 | in every run, for every stream, the bytes written to the local service are a prefix of those the connector read, and the bytes written to the connector's local connection a prefix of those the listener read |
| `Tunnel.AckPrecedesData` | pkg/tunnel/connector.go:197-218 | in every run no Data of a stream is under way before the listener has sent its positive ack, the buffer is empty at the hand-over, nothing is left to drain, and no write overtakes another |
| `Tunnel.QuietStreamIsComplete` | pkg/tunnel/listener.go:320-341 | when nothing is under way and both ends still have the stream, everything read at one end has been written at the other |
| `Tunnel.EndIsHeard` | pkg/tunnel/connector.go:257-272 | when an end has announced the end of a stream and nothing of it is under way any more, the other end has dropped the stream |
| `Tunnel.OpensAreFresh` | pkg/tunnel/listener.go:175-183 | in every run OpenStream reaches a listener for which the id is not live, so the condition on the peer never holds a message back |
| `Tunnel.StepInv` | pkg/tunnel/listener.go:159-315 | every step of either end or of the broker keeps both ends sound and every stream's two ends and channels linked |
| `Tunnel.ExecInv` | pkg/tunnel/connector.go:170-348 | the same for runs of any length |
| `Lifetime.StreamsGetThrough` | pkg/tunnel/connector.go:170-348 | for every id and any list of chunks in both directions there is a failure-free run after which each side has written exactly the bytes meant for it, and both have announced the end and dropped the stream |
| `Lifetime.RefusedStreamIsDropped` | pkg/tunnel/listener.go:213-230 | for every id there is a run in which the dial fails, the refusal reaches the connector, and both ends are rid of the stream |
| `Ending.NoStreamGetsStuck` | pkg/tunnel/connector.go:190-226 | from every reachable state of either end, whatever the peer has done, a stream that is not over can be brought to its end, with the id in no map |
| `Ending.ConnectorCanFinish` | pkg/tunnel/connector.go:190-274 | the same as a construction for the connector |
| `Ending.ListenerCanFinish` | pkg/tunnel/listener.go:212-315 | the same as a construction for the listener |
| `Shutdown.ConnectorShutsDown` | pkg/tunnel/connector.go:375-411 | from every reachable state `Close` sends its Disconnect and drops every stream, and then waiting goroutines can give up, pumps stop and the loop end |
| `Shutdown.ListenerShutsDown` | pkg/tunnel/listener.go:368-400 | the same for the listener |
| `Shutdown.ConnectorDisconnects` | pkg/tunnel/connector.go:324-325 | after a Disconnect the connector takes nothing more, in any continuation |
| `Shutdown.ListenerDisconnects` | pkg/tunnel/listener.go:199-200 | after a Disconnect the listener takes nothing more, in any continuation |
| `Listener.HandOverConserves` | pkg/tunnel/listener.go:232-254 | against any peer not reopening a live id, the accepted chunks are, as a multiset, those written, buffered, being drained, about to be written, or given up; a registered stream whose writes succeed has given up none |
| `Listener.OrderUnlessOvertaken` | pkg/tunnel/listener.go:320-341 | against any such peer the service receives a prefix of the accepted bytes unless a write began while earlier chunks were owed |
| `Overtaking.EagerPeerIsReordered` | pkg/tunnel/listener.go:246-254 | for any id and any two chunks there is a run without failures that accepts them in one order and writes them in the other |
| `Overtaking.OrderHangsOnTheBuffer` | pkg/tunnel/listener.go:242-254 | in any sound state after the connection is published and before anything went wrong: no continuation of any kind reorders the stream, if and only if no byte is left to drain or the message loop has ended |
| `Listener.PatientPeerIsInOrder` | pkg/tunnel/listener.go:212-267 | a peer that holds Data back until the ack is never reordered |
| `Listener.StepSound` | pkg/tunnel/listener.go:159-364 | every step keeps every stream coherent, its chunks conserved and its bytes in order unless overtaken |
| `Listener.ExecInv` | pkg/tunnel/listener.go:159-364 | the same for runs of any length |
| `Listener.StepCalm` | pkg/tunnel/listener.go:212-267 | with a patient peer no step leaves a chunk owed by the drain |
| `Overtaking.StepDrained` | pkg/tunnel/listener.go:320-341 | once no byte is left to drain, every step short of reopening the stream keeps the written bytes equal to the accepted ones up to the chunk in the loop's hands |
| `Listener.TakeOverSound` | pkg/tunnel/listener.go:234-246 | the critical section moves the buffer to the drain without losing a chunk or the order, or finds the stream gone |
| `Listener.DrainSound` | pkg/tunnel/listener.go:249-254 | a drain write, complete or failing part way, keeps conservation and order |
| `Listener.AcceptSound` | pkg/tunnel/listener.go:320-336 | taking a chunk, into the buffer or into the loop's hands, keeps conservation and order |
| `Listener.LoopWriteSound` | pkg/tunnel/listener.go:338-340 | the loop's write, complete or failing part way, keeps conservation and order |
| `Listener.UnregisterSound` | pkg/tunnel/listener.go:345-364 | deleting an entry turns exactly its buffered chunks into given-up ones |
| `Pump.NextFaithful` | pkg/tunnel/listener.go:272-315 | what a pump has sent is what it has read up to the chunk in its hands, and nothing is sent past a failed send |
| `Pump.PumpLaw` | pkg/tunnel/connector.go:231-274 | for all reads and schedules, a pump whose sends succeed has, when it stops, put on the session the chunks it read, in order, followed by exactly one CloseStream if and only if a read returned an error |
| `Connector.AckChannelsNeverBlock` | pkg/tunnel/connector.go:294-305 | whatever acks arrive, an ack channel gets at most one value, the loop's send on it is never blocked, and a pending id belongs to a goroutine still waiting |
| `Connector.AcksAreHeeded` | pkg/tunnel/connector.go:183-218 | in every run a goroutine waits only for an OpenStream that was sent, pumps after taking an ack if and only if the peer's ack was positive, and gives up if and only if it was negative |
| `Connector.LocalSideIsInOrder` | pkg/tunnel/connector.go:335-348 | against any peer a local connection receives a prefix of the chunks accepted for it |
| `Connector.StepSound` | pkg/tunnel/connector.go:170-348 | every step keeps every stream sound: one ack per channel, accepted bytes in order, pump running exactly after a positive ack |
| `Connector.StepFreshIds` | pkg/tunnel/connector.go:171-171 | the ids in use are exactly 1 up to the counter, so none is handed out twice |
| `Connector.ExecInv` | pkg/tunnel/connector.go:170-348 | both for runs of any length |
| `ListenerStreams.Streams.Register` | pkg/tunnel/listener.go:180-182 | leaves the map that receiving OpenStream leaves in the step system |
| `ListenerStreams.Streams.HandOver` | pkg/tunnel/listener.go:234-246 | leaves the map of the hand-over step and returns exactly the chunks that step is to drain |
| `ListenerStreams.Streams.Accept` | pkg/tunnel/listener.go:321-336 | leaves the map of receiving Data and tells whether the loop is to write the chunk; drops it only for an unknown id |
| `ListenerStreams.Streams.Delete` | pkg/tunnel/listener.go:345-364 | leaves the map without the stream and tells whether there is a connection to close |
| `ListenerStreams.Streams.Clear` | pkg/tunnel/listener.go:391-398 | leaves the map of the Clear step |
| `ListenerStreams.Streams.Empty` | pkg/tunnel/listener.go:391-398 | in whatever order the map is visited, exactly the streams with a connection are closed and the map ends empty |
| `ConnectorStreams.Streams.Allocate` | pkg/tunnel/connector.go:171-171 | the next id modulo 2^32, under which the step system knows a newly allocated stream unless the counter has just wrapped |
| `ConnectorStreams.Streams.SetPending` | pkg/tunnel/connector.go:175-177 | leaves the maps of the step of that name |
| `ConnectorStreams.Streams.Register` | pkg/tunnel/connector.go:179-181 | leaves the maps of the step of that name |
| `ConnectorStreams.Streams.TakePending` | pkg/tunnel/connector.go:296-305 | leaves the maps of receiving an ack and tells whether the loop is to deliver it |
| `ConnectorStreams.Streams.Lookup` | pkg/tunnel/connector.go:336-342 | changes nothing and tells whether receiving Data makes the loop write |
| `ConnectorStreams.Streams.RemoveStream` | pkg/tunnel/connector.go:352-371 | leaves the maps without the stream and tells whether there was a connection |
| `ConnectorStreams.Streams.RemovePending` | pkg/tunnel/connector.go:222-226 | leaves the maps of the step in which the goroutine forgets its channel |
| `ConnectorStreams.Streams.Clear` | pkg/tunnel/connector.go:402-409 | leaves the maps of the Clear step, pending ids untouched |
| `ConnectorStreams.Streams.Empty` | pkg/tunnel/connector.go:402-409 | in whatever order the map is visited, every connection is closed once and the map ends empty |
| `Framing.CutStream` | pkg/protocol/framing.go:62-81 | however the bytes of a list of frames are cut, repeated reads give exactly the payloads of the frames before the cut and then fail for want of bytes |
| `Framing.WholeIsExact` | pkg/protocol/framing.go:62-81 | the number of those frames is the largest whose bytes fit before the cut |
| `Framing.ParseIsSound` | pkg/protocol/framing.go:62-81 | a payload that is read is at most 2^20 bytes and the bytes consumed are exactly its frame |
| `Framing.ParseOfFrame` | pkg/protocol/framing.go:40-81 | reading undoes writing and leaves the bytes that follow |
| `Framing.ParseOfCutFrame` | pkg/protocol/framing.go:62-81 | no proper prefix of a frame gives a payload or is taken for an oversized one |
| `Framing.U32RoundTrip` | pkg/protocol/framing.go:49-49 | the length header decodes to the length encoded |
| `Framing.U32Surjective` | pkg/protocol/framing.go:68-68 | every header is the encoding of the length it decodes to |
| `Framing.WriteFrame` | pkg/protocol/framing.go:40-57 | an oversized payload writes nothing; any other puts its frame on the stream, or a prefix of it when the write fails |
| `Framing.ReadFrame` | pkg/protocol/framing.go:62-81 | result and remaining bytes are those of the parser, in every error case too |
| `Aead.ReplayAndReorderAreRejected` | pkg/crypto/aead.go:99-123 | for any delivered messages the accepted plaintexts are picked from the sealed ones at strictly increasing indices, and are a prefix for a reader that stops at its first error |
| `Aead.OpensOnlyInPlace` | pkg/crypto/aead.go:99-123 | a message that opens at counter n is the sender's n-th |
| `Aead.OpenedSealed` | pkg/crypto/aead.go:77-123 | a sealed message opens to its plaintext under the same counter and is a nonce mismatch under every other |
| `Aead.NoiseExactly` | pkg/crypto/aead.go:99-123 | a message that does not open costs a receiver that goes on nothing if it is shorter than a nonce, and everything that follows otherwise |
| `Aead.NonceInjective` | pkg/crypto/aead.go:142-148 | different counters below 2^64 give different nonces |
| `Aead.Counter.NextNonce` | pkg/crypto/aead.go:142-148 | the nonce of the counter, which advances modulo 2^64 |
| `Aead.Counter.Encrypt` | pkg/crypto/aead.go:77-94 | an oversized text costs no counter; any other is sealed under the next one |
| `Aead.Counter.Decrypt` | pkg/crypto/aead.go:99-123 | the outcome at the current counter; a message too short for a nonce is the only one that costs no counter |
| `Aead.NonceEqual` | pkg/crypto/aead.go:127-137 | true exactly for equal byte strings |
| `KeyExchange.KeysAreComplementary` | pkg/crypto/handshake.go:90-141 | both ends derive keys or neither does, each end's two keys differ, and they are complementary if and only if the public keys differ |
| `KeyExchange.SaltIsShared` | pkg/crypto/handshake.go:101-113 | both ends compute the same salt |
| `KeyExchange.LessIsTotal` | pkg/crypto/handshake.go:108-108 | the comparison orders any two different keys one way and not the other |
| `KeyExchange.LessIsLexicographic` | pkg/crypto/handshake.go:108-108 | one key is below another exactly if it is so at the first byte at which they differ, or ends there |
| `KeyExchange.KeysDependOnEverything` | pkg/crypto/handshake.go:90-141 | with a derivation and a hash without collisions, two derivations have a key in common if and only if they are of the same shared secret and the same two public keys: the sending keys in the same role, sending and receiving key in different ones |
| `KeyExchange.SmallerKeyIsTheClient` | pkg/crypto/handshake.go:115-140 | the holder of the smaller public key sends under the client-to-server info, the other under the server-to-client info, both with the secret and the salt of the ordered pair |
| `Session.EndToEnd` | pkg/protocol/handshake.go:46-115 | after both ends meet each other's greeting, any list of sendable envelopes of one is received by the other unchanged and in order |
| `Session.MeetGreeting` | pkg/protocol/handshake.go:46-115 | the peer's greeting yields the keys of its public key and leaves the bytes that follow for the session |
| `Session.MeetExactly` | pkg/protocol/handshake.go:46-115 | a handshake succeeds exactly on a first frame with a non-empty public key that yields keys |
| `Session.SessionRoundTrip` | pkg/protocol/session.go:69-122 | sending any list of sendable envelopes and receiving it gives the list back |
| `Session.LockstepExactlyOutsideTheBand` | pkg/protocol/session.go:69-122 | the sender's counter and that of a receiver handed all messages agree, if and only if no envelope was in the band (2^20 - 28, 2^20]; the receiver gets exactly what was sent before the first such envelope; everything after it is rejected |
| `Session.BandIsInhabited` | pkg/crypto/aead.go:77-94 | every faithful codec has, on every stream, Data in the band with a payload of 2^20 - 18 bytes |
| `Session.LargeDataIsInBand` | proto/messages.proto:77-80 | Data with a payload of 2^20 - 18 bytes is in the band for every codec that does not marshal it to fewer bytes than the payload, as protobuf does not |
| `Session.BandSilences` | pkg/protocol/session.go:69-88 | whatever the codec, an envelope in the band sent first leaves the receiver with nothing of whatever follows |
| `Session.TamperedStreamIsAPrefix` | pkg/protocol/session.go:102-122 | whatever bytes arrive, as long as no frame is forged, a receive loop gets a prefix of the envelopes sent, up to the first in the band |
| `Session.OneCounterEach` | pkg/crypto/aead.go:99-123 | a receiver spends exactly one counter for every message long enough for a nonce, accepted or not |
| `Session.BandDeafens` | pkg/protocol/session.go:73-85 | after an envelope in the band every later message is a nonce mismatch, for a receiver that goes on after errors too |
| `Session.OutOfStep` | pkg/crypto/aead.go:99-123 | a receiver behind the sender's counter rejects every message for ever |
| `Session.CounterGap` | pkg/protocol/session.go:69-88 | the sender's counter is at least the number of messages written, and equal exactly without an envelope in the band |
| `Session.SendsCompose` | pkg/protocol/session.go:69-88 | one send after another puts the bytes of the list on the wire and leaves its counter |
| `Session.RawExactly` | pkg/protocol/session.go:96-122 | the raw bytes of a receipt are the plaintext of the envelope, the plaintext that is none, or the message that does not decrypt |
| `Session.BigEndian` | pkg/protocol/framing.go:49-49 | lengths are in the order of their header bytes |
| `Session.NoncesInOrder` | pkg/crypto/aead.go:142-148 | counters are in the order of their nonce bytes |
| `Session.PumpedDataIsSendable` | pkg/tunnel/listener.go:282-291 | Data of at most 32 KiB stays below the band |
| `Session.Endpoint.constructor` | pkg/protocol/session.go:49-65 | two fresh counters at zero, one per directional key |
| `Session.Endpoint.Send` | pkg/protocol/session.go:69-88 | appends the bytes of this one envelope, or a prefix when the write fails; an envelope in the band is an error that still advances the counter |
| `Session.Endpoint.ReceiveRaw` | pkg/protocol/session.go:102-122 | result, raw bytes, counter and remaining input of one receive, in every error case |
| `Session.PerformHandshake` | pkg/protocol/handshake.go:46-115 | writes one greeting and consumes one frame; succeeds exactly when the greeting went out and the frame yields keys, and then gives a session with those keys and zero counters |
| `SendLock.WireIsInCounterOrder` | pkg/protocol/session.go:69-88 | for any interleaving of any number of senders the counters on the wire strictly increase; they are 0, 1, 2, ... if every sealed message was written, which holds whenever no envelope is in the band and no write fails |
| `SendLock.SendersAreSequential` | pkg/protocol/session.go:69-88 | in every run whose writes succeed the messages written are those of sending the envelopes one after the other in the order of their encryption, and a receiver gets that list if all are sendable |
| `SendLock.TamperedSendersAreAPrefix` | pkg/protocol/session.go:69-122 | whatever bytes arrive from concurrent senders, short of forgery, and whichever writes fail, the receiver gets a prefix of the envelopes whose write succeeded, and of those sent before the first in the band in the order of their encryption |
| `SendLock.MutexIsNeeded` | pkg/protocol/session.go:70-71 | without the lock, any two sendable envelopes have a failure-free run that writes counter 1 before counter 0 and the envelopes the wrong way round |
| `SendLock.NoNonceReuse` | pkg/crypto/handshake.go:115-140 | across both directions and all senders no key is used twice with a nonce, if and only if the public keys differ or one end is silent |
| `SendLock.ExecInv` | pkg/protocol/session.go:69-88 | every run keeps the lock exclusive and accounts for every counter as written, burnt or in the holder's hands |
| `Router.RemoveIsComplete` | pkg/broker/router.go:103-120 | when no client has two ids, stopping at the first match removes the client from both maps, whatever the iteration order |
| `Router.RemoveNeedsSingleIds` | pkg/broker/router.go:108-113 | a client with two ids survives its own removal |
| `Router.ListenerKeeps` | pkg/broker/router.go:46-57 | registering a client that is not in the table keeps it well formed and adds that one listener |
| `Router.LinkKeeps` | pkg/broker/router.go:71-89 | linking a client that is not in the table keeps it well formed, and the listeners as they were |
| `Router.WithoutKeeps` | pkg/broker/router.go:103-120 | removal keeps the table well formed, erases the client's registration and both halves of its link, and nothing else |
| `Router.Router.RegisterListener` | pkg/broker/router.go:46-57 | succeeds exactly for a free id; the new table |
| `Router.Router.LinkConnector` | pkg/broker/router.go:71-89 | succeeds exactly for a registered, unlinked listener; the new table |
| `Router.Router.GetPeer` | pkg/broker/router.go:93-98 | the peer, if any |
| `Router.Router.Remove` | pkg/broker/router.go:103-120 | the new table: one of the client's ids, whichever comes first, and its link are gone |
| `Broker.RouterStaysSound` | pkg/broker/server.go:267-380 | under every interleaving links are mutual and irreflexive, each joins one registered listener to one client that is none, no client has two ids, and every member is authenticated |
| `Broker.RemovedForGood` | pkg/broker/client_conn.go:139-177 | a client past its Remove step is in neither map, then or ever after |
| `Broker.CapacityIsRespected` | pkg/broker/server.go:202-216 | router members are tracked, tracked clients have running handlers, running handlers hold the slots, and all are at most 1024 |
| `Admission.MembersWereAdmitted` | pkg/broker/server.go:267-314 | whoever is in the router took, in that run, a successful handshake, a successful authentication and a first message asking for the role it has, under the id it is listed by |
| `Admission.TurnedAwayForGood` | pkg/broker/server.go:229-314 | after a failed handshake, a wrong passphrase, a first message that asks for no role or a role that cannot be had, the client is in neither map after any further steps |
| `Admission.AnyoneCanListen` | pkg/broker/server.go:318-347 | from every reachable state with a slot left, a new client can be admitted and registered under any free id |
| `Admission.AnyoneCanConnect` | pkg/broker/server.go:351-380 | and one asking for a registered, unlinked listener can be linked to it |
| `Admission.ServingListenersAreRegistered` | pkg/broker/server.go:318-347 | in every run a serving listener is registered under the id it asked for up to the Remove of its own `Close` |
| `Admission.NobodyIsLeftBehind` | pkg/broker/server.go:275-276 | a client past authentication whose handler has returned has been through its `Close` and is in no map, not tracked and without a slot |
| `Admission.EveryoneCanLeave` | pkg/broker/server.go:267-428 | from every reachable state every handler can come to its end |
| `Races.OnlyListenersOrphan` | pkg/broker/client_conn.go:153-159 | a Remove step cuts off a partner that `Close` will not close only if the closing client is a registered listener and somebody linked to it after its GetPeer |
| `Races.OnlyLateLinksBreak` | pkg/broker/client_conn.go:151-160 | of all steps, the link to a client between its GetPeer and its Remove is the only one after which `Close` no longer reaches the partner, and it always is |
| `Races.CloseReachesPeerExactly` | pkg/broker/client_conn.go:151-176 | in every run a `Close` holds at all times the partner it is to cut off, if and only if there is no such late link; and then its Remove hands that partner over to be closed |
| `Races.NoLateLinksNoOrphans` | pkg/broker/client_conn.go:151-176 | in a run without late links every open connector that serves is linked or on some list to be closed |
| `Races.LateLinkOrphans` | pkg/broker/client_conn.go:151-160 | from every reachable state, a late link followed by the Remove it raced leaves the connector an orphan |
| `Races.ConnectorCanBeOrphaned` | pkg/broker/client_conn.go:153-159 | from any state with an open listener and a connector about to link, four steps link the connector and leave it serving, unclosed, without a peer |
| `Races.OrphanIsReachable` | pkg/broker/client_conn.go:153-159 | from the start, any two clients have a run in which the connector is linked to the listener and later serves on, unclosed, without a peer and on nobody's list to close |
| `Races.ListenerCanBeRelinked` | pkg/broker/client_conn.go:159-175 | a listener whose connector is closing can be linked to another connector before it is closed itself |
| `Races.RelinkIsReachable` | pkg/broker/client_conn.go:159-175 | from the start, any three clients have a run in which a listener has one peer and later another |
| `Races.OnePeerExactly` | pkg/broker/router.go:71-89 | in every run at most one connector is ever linked to a client, if and only if nobody links to it while some `Close` is about to close it; the connectors linked to it are all different and its peer is one of them |
| `Races.PeerChangesOnlyWhenDoomed` | pkg/broker/client_conn.go:159-175 | from any reachable state a linked listener has another peer later only if some `Close` is by then about to close it |
| `Broker.UninterruptedClose` | pkg/broker/client_conn.go:139-177 | the lock-level steps of a `Close` and its cascade, run without interruption from any state, have the effect of the atomic `Close` on table and clients; a peer already inside its own `Close` is left to that |
| `Broker.StepInv` | pkg/broker/server.go:163-428 | every lock-level step keeps the invariant of table, clients and slots |
| `Broker.ExecInv` | pkg/broker/server.go:163-428 | the same for runs of any length |
| `ClientConn.ClientConn.Close` | pkg/broker/client_conn.go:139-177 | terminates; closes exactly the client and its peer, sends the peer and nobody else one Disconnect, erases both from the router, and does nothing when repeated |
| `ClientConn.ClientConn.Teardown` | pkg/broker/client_conn.go:140-161 | the client is closed and out of the table, and the returned peer is open and unlinked |
| `ClientConn.CloseBothIsExact` | pkg/broker/client_conn.go:139-177 | the table after `Close` is well formed and differs from the one before in the two clients only |
| `Relay.RelayMessages` | pkg/broker/server.go:386-414 | the deliveries are those of the received events, position by position, each to the peer of its own event; their envelopes are the received ones without heartbeats, in order, and at most the last is missing; the client is closed exactly after a receive error or an envelope that could not be delivered |
| `Relay.OnePeerForLife` | pkg/broker/router.go:71-98 | with `Close` atomic a client once linked is never linked to anyone else |
| `Relay.LinkIsAFifo` | pkg/broker/server.go:386-414 | with `Close` atomic what a client is delivered is what its one peer sent, in order, without heartbeats, perhaps without the last message of a closed peer, and nothing else |
| `Relay.ClosedExactly` | pkg/broker/server.go:318-414 | a step closes a client exactly if it closes it or its peer, meets an envelope of one of them that cannot be delivered, or refuses it its role |
| `Relay.ExecInv` | pkg/broker/server.go:318-414 | every run keeps the table, the members, the peers and the logs consistent |
| `Atomicity.UninterruptedRunsAreCoarse` | pkg/broker/client_conn.go:139-177 | every lock-level run of the broker without an interrupted `Close` leaves the table that the corresponding run with `Close` as one step leaves |
| `Atomicity.UninterruptedRunsKeepPeers` | pkg/broker/router.go:71-98 | in such lock-level runs a client once linked is never linked to anyone else |
| `LockRelay.PairsAreFifos` | pkg/broker/server.go:386-414 | with receive, GetPeer and send as separate steps under every interleaving, what a client got from another is in order what that one's loop sent to it, and what a loop sent is what it received without heartbeats, at most without the last |
| `LockRelay.LinkIsAFifo` | pkg/broker/server.go:386-414 | if nobody linked to a listener while it was to be closed, all that it and its connector got is what the other's loop received, in order, without heartbeats and at most without the last; all of it while that loop is between two messages |
| `LockRelay.ExecInv` | pkg/broker/server.go:386-414 | every run keeps the logs, the pairing of sends and receipts, and that only clients once linked exchange messages |
| `Path.HopIsAFifo` | pkg/protocol/session.go:69-122 | what arrives over a session with concurrent senders, failed writes included, is a prefix of what was written |
| `Path.PathIsAFifo` | pkg/broker/server.go:229-414 | from end to end through two sessions and the relay, after authentication and the request of a role, the messages of a stream that arrive are a prefix of those sent |
| `Path.PathCarries` | pkg/tunnel/connector.go:74-149 | so what a message loop has taken after the broker's answer is, per stream, a prefix of what the other end sent after its hello |
| `Passage.MessagesPass` | pkg/broker/server.go:229-414 | what the two rows above ask of a run is met: for any lanes, clients, hello and messages of the broker's own, any message of a connector that can be sent can go all the way to its listener |
| `OverPaths.PathsCarry` | pkg/broker/server.go:229-414 | two sessions and the relay between them carry every stream as the next theorem asks |
| `OverPaths.BytesArriveInOrder` | pkg/tunnel/listener.go:159-341 | over any two channels that carry per stream a prefix of what was sent, in every run the bytes written at either end are a prefix of those read at the other |
| `OverPaths.NothingIsHeldBack` | pkg/tunnel/listener.go:175-183 | no message such a channel carries is one that opens a live id |
| `OverPaths.EndIsHeard` | pkg/tunnel/listener.go:188-190 | over such channels too, an announced end that has been taken leaves the stream dropped |
| `OverPaths.HeartbeatsAreEchoed` | pkg/tunnel/connector.go:317-322 | in every run each end has sent exactly as many heartbeats as its loop has taken |
| `OverPaths.MarksAreHonest` | pkg/tunnel/connector.go:183-272 | an end counts a stream as asked for, acked or ended only if it has sent the message that says so, and the connector exactly then |
| `OverPaths.NothingAfterDisconnect` | pkg/tunnel/listener.go:199-200 | in every run a Disconnect is the last message an end takes |
| `Reconnect.RunWithReconnect` | pkg/tunnel/reconnect.go:124-229 | for every script the loop with its reset of the counter to -1 gives the trace and outcome of the recursive specification |
| `Reconnect.TraceLaw` | pkg/tunnel/reconnect.go:124-229 | in every run the events follow each other as they may, attempt numbers run 1, 2, ... and start over after a success, and a cancelled run ends in a cleanup |
| `Reconnect.OneCleanupOneAttempt` | pkg/tunnel/reconnect.go:161-198 | between two consecutive connects there is exactly one cleanup and then one attempt |
| `Reconnect.ConnectBound` | pkg/tunnel/reconnect.go:161-229 | with MaxRetries n and s successful reconnects there are at most 1 + (s+1)*n connects |
| `Reconnect.RunsEnd` | pkg/tunnel/reconnect.go:161-229 | a run with MaxRetries n is still going after at most (s+1)*n rounds, s of them successful |
| `Reconnect.GivesUpExactly` | pkg/tunnel/reconnect.go:161-165 | a run is exhausted if and only if MaxRetries is positive and as many retries have failed since the start or the last success; there are never more; without retries the first error or loss is returned |
| `Reconnect.FailureTakesAllRetries` | pkg/tunnel/reconnect.go:161-205 | if nothing works and nothing is cancelled there are exactly 1 + MaxRetries connects, and the last error is reported |
| `Reconnect.NegativeMeansForever` | pkg/tunnel/reconnect.go:161-228 | with a negative MaxRetries a run goes on, one connect a round, exactly as long as no round is interrupted |
| `Reconnect.AttemptsAreReported` | pkg/tunnel/reconnect.go:179-190 | every attempt reports the error that led to it and the delay for its number with the draw of its round |
| `Backoff.BaseIsMonotone` | pkg/tunnel/reconnect.go:69-74 | the delay before jitter never shrinks with the attempt number |
| `Draw.DrawRange` | pkg/tunnel/reconnect.go:91-107 | with every rounding of double precision, a draw lies in [-1, 1], is 1 exactly for the 1024 largest 64-bit numbers and -1 exactly for the 513 smallest |
| `Backoff.DelayBounds` | pkg/tunnel/reconnect.go:69-89 | every delay is between zero and (1 + jitter) times the base delay and times the maximum |
| `Backoff.BaseIsGeometric` | pkg/tunnel/reconnect.go:69-74 | the base delay starts at the initial delay and is multiplied by the factor from attempt to attempt, until the maximum |
| `Backoff.DelayIsDue` | pkg/tunnel/reconnect.go:76-89 | a delay is the base moved by the draw's share of the jitter, without its fraction, and so falls short by no more than the jitter and one unit |
| `Backoff.TotalWaitBounds` | pkg/tunnel/reconnect.go:69-89 | the total wait of n attempts is at most n stretched maxima and at most the geometric series of the stretched first delay |
| `Heartbeat.HeartbeatLoop` | pkg/broker/client_conn.go:190-213 | the loop closes the client at the first tick at which it was not seen for 45 s, after one heartbeat per earlier tick, and at no other |
| `Heartbeat.NotBeforeTimeout` | pkg/broker/client_conn.go:190-213 | no tick within 45 s of a sign of life closes the client |
| `Heartbeat.SilentClientIsClosed` | pkg/broker/client_conn.go:190-213 | every tick later than 45 s after the last sign of life closes, and one comes within 60 s if and only if the loop had started within 45 s |
| `Heartbeat.AnsweringClientStays` | pkg/broker/server.go:394-399 | no client seen a given gap before its loop started and answering within a given delay is ever timed out, if and only if gap and delay are 0 and at most 45 s, at most 15 s and 30 s, or at most 30 s and 15 s |
| `Heartbeat.LateAnswer` | pkg/broker/client_conn.go:190-213 | outside these bounds there is a client that answers in time and is closed at tick 1, 2, 3 or 4 |
| `Heartbeat.AnswersAreEchoes` | pkg/broker/server.go:394-399 | one answer per heartbeat, each within the delay, makes a client that echoes in the sense of the row on answering clients |
| `Heartbeat.LateFirstAnswerIsFatal` | pkg/broker/server.go:345-345 | a client seen before the loop starts and silent past the third tick is not alive there; it gets through the first two exactly if it was seen in the 15 s before the start |

## Left out

- Connector.ExecInv: covers sessions of fewer than 2^32 streams; the wrap-around of the `uint32` id counter is not modelled.
- Listener.ExecInv: covers peers that do not reopen an id while it is registered or a goroutine of it runs; `Tunnel.OpensAreFresh` shows that the connector is such a peer.
- Aead.ReplayAndReorderAreRejected: covers fewer than 2^64 messages, after which the counter would wrap.
- Listener.Receive and Connector.Receive: the message loops may go on receiving after `Close` has begun; that they look at `closeCh` between two messages is not modelled, so the runs include more than those of the source.
- SendLock.SendersAreSequential: covers runs whose writes succeed; for all others `SendLock.TamperedSendersAreAPrefix` says what can be received.
- ClientConn.ClientConn.Send: takes every message; the failure of the best-effort Disconnect is not modelled.
- Heartbeat.AnsweringClientStays: ticks are handled at their nominal time; delays of the ticker are not modelled.
- The state of sockets: closing, deadlines and partial reads; whether every local connection is eventually closed is not claimed (a pump that meets the end of its input removes the stream without closing the connection).
- The flag `ready` of `streamState`, which is written together with `conn` and never read.
- `Server.Stop`, the wait group and the start-up code: a late handler can register a client that `Stop` has just closed, so they are not part of the runs.
- The internals of AES-GCM, X25519, HKDF, SHA-256 and protobuf, failures of marshalling, and the generation of random keys and draws.
- The passphrase comparison of the broker: its outcome is an argument of the step.
- Rounding of floating-point numbers in the delay: it is computed over the reals, with the final truncation; only the draw is rounded.
- `SendCleartext`, `ReceiveCleartext` and `FindListener`, which would add only easy members.
- The IP and country filters, logging, the user interface and the command line.
