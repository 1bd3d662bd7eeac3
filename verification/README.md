# The media gateway: DTLS handshake transport, stream registries and parsers

This project models the parts of the gateway with the most state and proves what they are for.

**Handshake delivery.** A side of a DTLS 1.2 connection (RFC 6347, section 4.2) caches each handshake
message, cuts it at the MTU, wraps every fragment in a numbered, perhaps protected record and packs
records into datagrams (`Fragmenting`, `Framing`, `Sending`, `RecordNumbers`). The other side unpacks,
checks epoch and replay, opens, buffers, chains fragments and releases messages in order (`Reading`,
`IncomingRecords`, `FragmentBuffers`, `Reassembly`, `Connections`). The network is the set of all
datagrams ever sent, and any of them may arrive at any time, whole or in parts, so loss, repetition,
reordering and a change of keys in the middle of a datagram need no cases of their own. `Network.EndToEnd` is the result: every cache holds exactly a prefix of what the peer
has sent, and what has arrived completely has been released.

**Transcripts.** `HandshakeCaches` is the cache and its pulls, `Transcripts` the agreement of two caches
(section 4.2.6 of RFC 6347). The modules `Honest...` run the two real state machines against each other
over that network, with every timer, failure and interleaving, and prove by induction over the runs that
both sides hash the same bytes for the session (sections 3 and 4 of RFC 7627), although the client does so
before it has sent them, that they derive the same keys, that the client always accepts an honest server's
Finished, that the client's Finished vouches for the server's transcript, and that a client finishes only
together with a server that has heard everything. `HonestTranscripts` says what those bytes are, message
by message; `HonestChoices`, `HonestPeers` and `HonestSignatures` that the sides agree on suite, profile,
certificates and proofs and never refuse each other's signatures. The modules `InOrder...`, `PskFlights` and `PskRun` show
that such runs complete: from any two MTUs, a handshake with a shared key in which everything arrives in
order ends with both sides finished (`PskRun.InOrderCompletes`).

**State machine.** `ServerFlights`, `ClientFlights` and `Handshaking` say what each flight reads and
answers and how the driver moves; `ServerSteps`, `ClientSteps` and `Handshakers` are the same code in its
own form, assignment by assignment, proved equal to them. `HandshakeRuns.EveryRun` holds for one side
against any peer whatever; so does `GuardedRuns`: a side keeps to its policies, goes on only with a peer
that has proved itself, and sends a lost flight again. `Negotiation` is what a server takes from a hello.

**Registries.** `Streams` and `LiveStreams` take each lock section as one atomic step and prove their
accounting under every interleaving of creations, subscriptions, releases, timers and removals.

**Parsers.** `Headers`, `Extensions`, `Messages`, `Handshakes` and `Codecs` are the wire formats, `Flv` the
scanner that finds the end of the sequence header in a stream cut into arbitrary reads, `Sdp` the
normaliser of remote answers.

## What the outside is asked for

Cryptography is a record of functions (`HandshakeStates.Crypto`); key generation and the values of
`Draws` depend on a draw, so every choice of randomness is covered. `HonestWorlds.SetupOk` lists what the
theorems about two honest sides ask of them: suites with the same keys open each other's records and keep
the record header, two key pairs of one curve agree on a secret, both sides know their configured suites,
a pre-shared key is the same on both sides, and a fragment fits a record. `HonestWorlds.SetupExists` shows
that this can be met. The theorems of `HonestSignatures` ask in addition that what a key signs checks with
its certificates. In those runs each side numbers fewer than 2^16 messages and a side may in addition
send alerts whenever it likes. The replay detector is a function of the numbers it has accepted; the
theorem about deliveries asks that it lets none through twice (section 4.1.2.6 of RFC 6347), the one about
completion that it lets through a number above all others.

## Findings

- The random of a hello has finer than second resolution, but only whole seconds travel, so a hello does
  read back as it was written exactly if its clock stands at a whole second (`Messages.HellosReadBackIff`,
  with an example in `Messages.FractionLost`). The keys do not notice (`HonestHandshakes.KeysAreShared`).
- A named-curve ServerKeyExchange of exactly 770 bytes is read as a pre-shared-key hint
  (`Messages.ServerKeyExchangeRoundTrip` has both directions, `Messages.ExchangeMisread` an example).
- The server asks for the client's Finished in epoch 1 but never compares its content. What it does is
  independent of the content (`ClientFinished.ContentIgnored`); it goes on exactly if a Finished with the
  expected number is there and the client authentication policy passes (`ClientFinished.PassesIff`); a
  wrong Finished completes (`WrongFinished.WrongFinishedCompletes`); and that of an honest client is never
  wrong (`HonestFinished.ComparisonWouldSucceed`).
- The subscribers of a stream that is removed by force are never taken off the total, because their
  releases find no entry (`Streams.ForcedRemovalLeaks`). The total is right exactly in the runs whose
  forced removals all met idle streams (`Streams.AccurateIff`, with an example in
  `Streams.RemovalCanMislead`).
- Two relays can share a key only through a NUL character in a URL (`LiveStreams.KeysClashIff`).

## Model

| member | source | states |
|---|---|---|
| Network.EndToEnd | patches/webrtc-dtls/src/conn/mod.rs:664-767 | In every honest run of two sides over a network that may lose, repeat and reorder datagrams, for any two MTUs that fit a record: each cache holds exactly a prefix of the messages the peer has sent, with their type, epoch and single-fragment bytes, and once every piece of the first n messages has been accepted, those n have been popped. |
| Network.HalfProgress | patches/webrtc-dtls/src/fragment_buffer/mod.rs:88-126 | In one direction: once every piece of the first n messages has been accepted by the receiver, n pops have succeeded. |
| Delivery.HandledKeeps | patches/webrtc-dtls/src/conn/mod.rs:916-1070 | Whatever genuine record of the peer arrives, in whatever order and however often, the receiver keeps holding exactly a prefix of what was sent, only genuine fragments in its buffer and only genuine records in its queue. |
| Emission.SendKeeps | patches/webrtc-dtls/src/conn/mod.rs:555-621 | A send appends to the cache exactly the messages it is the first to send, numbered from the end of what was sent before, and everything it puts on the wire is a genuine record of a message that has been cached before. |
| Reassembly.PoppedIsSent | patches/webrtc-dtls/src/fragment_buffer/mod.rs:88-126 | Whatever mix of pieces and copies the buffer holds, and for fragments cut at any MTU, what is popped is byte for byte the single-fragment encoding of the message in turn, with its epoch. |
| Reassembly.CompletePops | patches/webrtc-dtls/src/fragment_buffer/mod.rs:88-160 | If every piece of the message in turn is in the buffer, the pop succeeds. |
| Reassembly.PiecesTile | patches/webrtc-dtls/src/conn/mod.rs:1210-1223 | The pieces of a cut follow one another without gap from 0 to the end of the body, each at its own offset; the last one is the only one that ends it. |
| Fragmenting.SplitBytes | patches/webrtc-dtls/src/conn/mod.rs:1210-1223 | Returns the chunks of the specification function whose meaning SplitIs states. |
| Fragmenting.SplitIs | patches/webrtc-dtls/src/conn/mod.rs:1210-1223 | The chunks concatenate to the input, none is longer than the split length, all but the last have exactly that length; an empty input gives one empty chunk. |
| Fragmenting.FragmentHandshake | patches/webrtc-dtls/src/conn/mod.rs:724-767 | Each chunk of the body behind a handshake header with the message's type, number and whole length and the chunk's own offset and length, in order. |
| Framing.UnpackDatagram | patches/webrtc-dtls/src/record_layer/mod.rs:90-111 | Equals the specification of UnpackedIff, the errors for a short header or body included. |
| Framing.UnpackedIff | patches/webrtc-dtls/src/record_layer/mod.rs:90-111 | Unpacking succeeds with a list of records exactly if they concatenate to the buffer and each has at least a header and the length its header announces. |
| Framing.CompactRawPackets | patches/webrtc-dtls/src/conn/mod.rs:1191-1208 | Joins consecutive records into the datagrams of the greedy grouping. |
| Framing.GroupsGreedy | patches/webrtc-dtls/src/conn/mod.rs:1191-1208 | A datagram is closed only if the next record would make it reach the MTU. |
| Framing.PackUnpack | patches/webrtc-dtls/src/conn/mod.rs:1191-1208 | For every MTU and every non-empty list of framed non-empty records, unpacking all datagrams and concatenating gives back exactly the records in order; a datagram of two or more records is shorter than the MTU. |
| Sending.Sender.NextSequence | patches/webrtc-dtls/src/conn/mod.rs:628-646 | Takes the epoch's next number and counts it; past 2^48-1 there is only the error. No other epoch's counter changes. |
| Sending.Sender.ProcessPacket | patches/webrtc-dtls/src/conn/mod.rs:623-662 | One record with the epoch's next number, protected if asked to; the counter moves also if it fails. |
| Sending.Sender.ProcessHandshakePacket | patches/webrtc-dtls/src/conn/mod.rs:664-722 | One numbered, protected record for each fragment, in order; the first failure ends the packet. |
| Sending.Sender.HandleOutgoingPackets | patches/webrtc-dtls/src/conn/mod.rs:555-621 | Every handshake message is cached, unfragmented, before any of its records is made; the datagrams are the packed records of all packets, or the first failure and nothing sent. |
| RecordNumbers.NumbersNeverReused | patches/webrtc-dtls/src/conn/mod.rs:628-646 | Over any sequence of sends and retransmissions, with any suites that keep the record header: of two records sent, the later has another epoch or a larger sequence number. |
| RecordNumbers.NumberingStops | patches/webrtc-dtls/src/conn/mod.rs:675-698 | Once an epoch has used its last number, every call with a packet of that epoch fails, sends nothing, and leaves it so. |
| FragmentBuffers.FragmentBuffer.BufferedSize | patches/webrtc-dtls/src/fragment_buffer/mod.rs:128-134 | The number of payload bytes over all fragments of all messages. |
| FragmentBuffers.FragmentBuffer.Push | patches/webrtc-dtls/src/fragment_buffer/mod.rs:39-86 | Files every fragment of a handshake record under its message number; a full buffer, a bad header or a body cut short is an error that keeps the fragments already filed. |
| FragmentBuffers.PushBounded | patches/webrtc-dtls/src/fragment_buffer/mod.rs:39-86 | Buffered payload stays below 2,000,000 bytes on every path, pushes that fail midway included; it never shrinks; the position never moves; a record of another type changes nothing. |
| FragmentBuffers.FragmentBuffer.Pop | patches/webrtc-dtls/src/fragment_buffer/mod.rs:88-126 | Assembles the message in turn from offset 0; if that fails nothing changes. |
| FragmentBuffers.AppendMessage | patches/webrtc-dtls/src/fragment_buffer/mod.rs:136-160 | Recurses along the first fragment at each offset and puts the payload in front on the way back; terminates because the offset grows. |
| FragmentBuffers.AppendedIffChain | patches/webrtc-dtls/src/fragment_buffer/mod.rs:136-160 | On arbitrary fragments: assembling succeeds exactly if the first-match chain from the offset reaches a fragment that is empty or ends at its declared length, and then yields that chain's payload. |
| Reading.ConnReader.HandleIncomingPacket | patches/webrtc-dtls/src/conn/mod.rs:916-1176 | The new reader state and the outcome for one record: header, epoch, replay detector, queue, decryption, fragment buffer, content, in the order and with the alerts and errors of the source. |
| Reading.ConnReader.DrainMessages | patches/webrtc-dtls/src/conn/mod.rs:1035-1070 | Pops and caches every complete message in turn. |
| Reading.ConnReader.HandleContent | patches/webrtc-dtls/src/conn/mod.rs:1075-1176 | Alerts, ChangeCipherSpec and application data after the handshake records have been taken out. |
| IncomingRecords.HandledEffect | patches/webrtc-dtls/src/conn/mod.rs:916-1176 | Everything one record can do: the epoch moves up by one or not at all; what is delivered is the opened body of a record of an epoch between 1 and the reached one whose number the detector had not accepted and now has; at most one record is queued, and only itself. |
| IncomingRecords.EpochStepsIff | patches/webrtc-dtls/src/conn/mod.rs:916-1141 | The epoch moves exactly on a ChangeCipherSpec of the current epoch that its detector lets through, that opens, that finds an initialised suite, and for which the fragment buffer, which sees every record first, is not full. |
| IncomingRecords.DeliversIff | patches/webrtc-dtls/src/conn/mod.rs:916-1156 | Application data is delivered, and then exactly the body of the opened record, if and only if the record is of an epoch from 1 to the one reached, its detector lets its number through, the suite is initialised and opens it, the fragment buffer has room for it, and what it opens to is application data; otherwise what is delivered stays as it was. |
| IncomingRecords.AcceptsIff | patches/webrtc-dtls/src/conn/mod.rs:916-1144 | A number is used up exactly by a record that opens and has a content that counts: a handshake record that the buffer files, an alert, a ChangeCipherSpec that moves the epoch, or application data of a protected epoch. A forged or broken record leaves the number to the real one. |
| IncomingRecords.QueuesIff | patches/webrtc-dtls/src/conn/mod.rs:935-1128 | A record goes to the queue exactly if it is of the next epoch, or has passed its detector and must wait for keys: any record of a later epoch than 0, or a ChangeCipherSpec of epoch 0. One taken from the queue never goes back. |
| IncomingRecords.StopsIff | patches/webrtc-dtls/src/conn/mod.rs:997-1176 | The work on a datagram ends exactly at a record that opens to an alert or to something that must not be there (a bad ChangeCipherSpec, application data of epoch 0, an unknown type), or, with a pre-shared key, at one that does not open. |
| IncomingRecords.AlertAnswered | patches/webrtc-dtls/src/conn/mod.rs:1091-1106 | An alert is answered with itself, a close_notify with a close_notify at warning level. |
| IncomingRecords.EveryRun | patches/webrtc-dtls/src/conn/mod.rs:868-1176 | In every run of datagrams and queue work, given a detector that accepts no number twice: no (epoch, sequence) pair is delivered twice, none from epoch 0, and every record is examined at most twice for each time it has arrived, its copies in the queue counted as examinations to come. |
| Connections.ReadAndBuffer | patches/webrtc-dtls/src/conn/mod.rs:778-866 | Reads the records of a datagram one after the other until one of them is fatal; a datagram that does not unpack leaves the reader as it is. |
| Connections.HandleQueuedPackets | patches/webrtc-dtls/src/conn/mod.rs:868-914 | Empties the queue first, then reads what was in it without queueing again. |
| Connections.ReadOnIsExamined | patches/webrtc-dtls/src/conn/mod.rs:778-914 | The loop above and the runs of IncomingRecords.EveryRun give the same reader. |
| HandshakeCaches.HandshakeCache.Push | patches/webrtc-dtls/src/handshake/handshake_cache.rs:43-68 | The first message of a sender with a number stays; a later one in the same slot is dropped. |
| HandshakeCaches.HandshakeCache.Pull | patches/webrtc-dtls/src/handshake/handshake_cache.rs:73-97 | For each rule in order, the best matching item, if any. |
| HandshakeCaches.HandshakeCache.FullPullMap | patches/webrtc-dtls/src/handshake/handshake_cache.rs:100-150 | Equals the specification that FullPulledIff characterises. |
| HandshakeCaches.HandshakeCache.PullAndMerge | patches/webrtc-dtls/src/handshake/handshake_cache.rs:153-161 | The data of the pulled items, one after the other. |
| HandshakeCaches.HandshakeCache.SessionHash | patches/webrtc-dtls/src/handshake/handshake_cache.rs:165-240 | The hash of the text up to the client's key exchange and of what the caller appends. |
| HandshakeCaches.BestIff | patches/webrtc-dtls/src/handshake/handshake_cache.rs:73-97 | If no two items share a slot, a pull finds an item exactly if it matches and has the highest number of all that match. |
| HandshakeCaches.FullPulledIff | patches/webrtc-dtls/src/handshake/handshake_cache.rs:100-150 | For rules of distinct types: the pull succeeds exactly if every mandatory rule has an item and the pulled messages read back with consecutive numbers from the start, and then returns the next number and those messages. |
| HandshakeCaches.FullPulledMessages | patches/webrtc-dtls/src/handshake/handshake_cache.rs:100-150 | A successful pull gives for each rule the message of its best item, and nothing else. |
| HandshakeCaches.OrderIndependent | patches/webrtc-dtls/src/handshake/handshake_cache.rs:43-97 | After any run of pushes no two items share sender and number, and a merged transcript is the same for every order and every repetition of the same items. |
| HandshakeCaches.PulledSame | patches/webrtc-dtls/src/handshake/handshake_cache.rs:73-97 | Two caches with the same items pull the same sequence of items for every rule list. |
| Transcripts.SameSlotSameItem | patches/webrtc-dtls/src/conn/mod.rs:1035-1070 | From what every honest run keeps: an item of one cache and one of the other that claim the same sender and number are equal in type, epoch and bytes. |
| Transcripts.TranscriptsAgree | patches/webrtc-dtls/src/conn/mod.rs:566-587 | In every state of an honest run: once each side holds the peer's messages that a rule list pulls, both sides pull and merge the same bytes, for every rule list. |
| HonestHandshakes.SameMessages | patches/webrtc-dtls/src/flight/flight5.rs:309-343 | Two real state machines over the network: in every reachable state, items of the two caches with the same sender and number are equal. |
| HonestHandshakes.SessionTextsAgree | patches/webrtc-dtls/src/flight/flight5.rs:309-408 | The text the client hashed for the session and signed before it had sent flight 5, that is its cache followed by the predicted messages, is what the server's cache yields once it has the client's key messages; the client's master secret is derived from that text. |
| HonestHandshakes.KeysAreShared | patches/webrtc-dtls/src/flight/flight4.rs:275-397 | As soon as the server has keys, the client has them too, the master secrets are equal and each side's suite opens the other's records. |
| HonestTranscripts.TranscriptsCover | patches/webrtc-dtls/src/handshake/handshake_cache.rs:172-236 | Message by message, without any pull rule: in every honest run in which flight 5 has been prepared, the extended master secret is that of the hash of the last hello, every message of flight 4 and the key messages, in this order and whole; the legacy one is that of the client's random and then the server's; the client's proof signs the same text; once the server has the key messages its cache yields it; the client's Finished covers all that came before it, the proof included, and the server's also the client's Finished. |
| HonestTranscripts.SuitesCover | patches/webrtc-dtls/src/flight/flight5.rs:612-776 | The suites of both sides come of one suite number, the shared master secret and the two randoms as drawn, the client's first. |
| HonestPeers.ServerKnown | patches/webrtc-dtls/src/flight/flight3.rs:171-330 | In every honest run, once the client has read flight 4: it uses the SRTP profile that the server uses, it holds the server's own certificates (none with a shared key), it knows whether the server asks for a certificate, and flight 4 carries the certificates, the request and the identity hint of the server's configuration and no others. |
| HonestPeers.RequestAnswered | patches/webrtc-dtls/src/flight/flight5.rs:197-262 | In every honest run: the client sends its certificates, or an empty list, before its key exchange exactly if the server asks for them, and a proof exactly if it is asked and has a certificate; its key exchange names its identity with a shared key and its public key otherwise. |
| HonestChoices.ClientKnown | patches/webrtc-dtls/src/flight/flight0.rs:79-162 | In every honest run, a server past the hello uses the client's first cipher suite that it wants itself and the client's first SRTP profile that it wants (none if the client has none), and has the server name that the client was given. |
| HonestSignatures.KeyShareAccepted | patches/webrtc-dtls/src/flight/flight4.rs:615-662 | An honest client never refuses an honest server's key share for its signature, given that what the server's key signs checks with its certificates: both sides take the same randoms, key, curve and certificates. |
| HonestSignatures.ProofAccepted | patches/webrtc-dtls/src/flight/flight4.rs:118-227 | An honest server never refuses an honest client's proof for its signature, given that what the client's key signs checks with its certificates and scheme. |
| HonestHandshakes.FinishedAccepted | patches/webrtc-dtls/src/flight/flight5.rs:40-173 | In flight 5 the client keeps reading until an honest server's Finished is in its cache and then always accepts it: the compared transcripts are equal. |
| HonestHandshakes.FinishedTogether | patches/webrtc-dtls/src/flight/flight5.rs:40-173 | When the client is about to finish, the server is in its last flight, has every message the client ever sent, and both have the same master secret and matching suites. |
| HonestPredictions.PredictionExact | patches/webrtc-dtls/src/flight/flight5.rs:309-343 | The core of SessionTextsAgree, from the invariant: the predicted numbers are those that prepare assigns later. |
| HonestFinished.ComparisonWouldSucceed | patches/webrtc-dtls/src/flight/flight4.rs:413-442 | In every honest run, a server that has left flight 4 holds a Finished of the client that is what the server's own master secret makes of the transcript its own cache yields up to it: the comparison that the code leaves out would have succeeded. |
| HonestFinished.FinishedVouches | patches/webrtc-dtls/src/flight/flight5.rs:488-598 | As soon as an honest client's Finished is in the server's cache, it is what the client's keys make of exactly the text that this cache yields up to it: the third use of the predicted text. |
| ClientFinished.PassesIff | patches/webrtc-dtls/src/flight/flight4.rs:413-498 | The server goes on to its last flight if and only if a Finished with the expected number is cached and the client authentication policy passes. |
| ClientFinished.ContentIgnored | patches/webrtc-dtls/src/flight/flight4.rs:432-442 | For every state, configuration, start and pair of caches whose latest Finished carry the same number: the server does the same, whatever the two contents. |
| ClientFinished.RepeatsIff | patches/webrtc-dtls/src/flight/flight6.rs:26-71 | A server in its last flight repeats it exactly if the latest Finished in its cache has the number before the one it waits for next. |
| ClientFinished.FinishedRepeats | patches/webrtc-dtls/src/flight/flight6.rs:26-71 | The Finished that took the server there asks for the flight again. |
| WrongFinished.AnyFinishedCompletes | patches/webrtc-dtls/src/flight/flight4.rs:432-442 | For every content there is a run against some peer in which the server finishes with a Finished of that content. |
| WrongFinished.WrongFinishedCompletes | patches/webrtc-dtls/src/flight/flight4.rs:432-442 | Such a run with a Finished that is not what the server's keys make of its transcript. |
| PskRun.InOrderCompletes | patches/webrtc-dtls/src/handshaker.rs:221-388 | For any two MTUs that fit a record and any replay detector that lets through numbers above all it has accepted: there is a run of the two honest machines with a shared key in which each send is followed by the arrivals of exactly its datagrams, once and in order, and nothing else arrives, that ends with both sides finished, in flights 5 and 6, on the same master secret. |
| InOrderRuns.Exchanged | patches/webrtc-dtls/src/handshaker.rs:315-388 | In any honest set-up whose sides keep up with each other: a flight of short unprotected messages that is sent, and whose datagrams arrive in order, leaves the receiver with every planned message popped and keeping up as before, however the MTU cuts and packs it. |
| InOrderRuns.KeysExchanged | patches/webrtc-dtls/src/conn/mod.rs:916-1000 | Flight 5 sent to a server without keys: everything up to the key exchange is popped, and exactly the records of the ChangeCipherSpec and the Finished wait in the queue. |
| InOrderSides.QueueHeard | patches/webrtc-dtls/src/conn/mod.rs:868-914 | Reading that queue with matching keys steps the epoch and brings every piece of the Finished: the server has got all that was sent. |
| InOrder.PiecesTaken | patches/webrtc-dtls/src/conn/mod.rs:916-1070 | Records that carry the pieces of a message under increasing numbers, of an epoch that has been reached: each is accepted, none ends the work, and the fragment buffer grows by no more than their bytes. |
| InOrderFlights.HearingAll | patches/webrtc-dtls/src/conn/mod.rs:778-866 | Receiving datagrams one after the other does what their records in order do, however they were grouped, as long as none of them ends the work. |
| HandshakeContexts.FindMatching | patches/webrtc-dtls/src/lib.rs:31-57 | The first element of one list that is also in the other. |
| HandshakeContexts.DeriveMasterSecret | patches/webrtc-dtls/src/flight/flight5.rs:635-690 | Extended: from the hash of the cached text and the text still to be sent; otherwise from the two randoms. |
| HandshakeRuns.EveryRun | patches/webrtc-dtls/src/handshaker.rs:221-388 | For one side against an arbitrary peer, with timers and failing sends at any time: a client visits only flights 1, 3, 5 and a server only 0, 2, 4, 6, never going back; messages are numbered one after the other from 0, and only HelloVerifyRequests share the number 0; a side that finishes has local epoch 1, a client after a Finished equal to what it computed over its transcript, a server after a hello with its own non-empty cookie and a Finished of epoch 1. |
| GuardedRuns.PoliciesKept | patches/webrtc-dtls/src/flight/flight3.rs:189-290 | For one side against an arbitrary peer, in every run: the SRTP profile, the extended master secret and, if deriving keys keeps the suite number, the cipher suite are ones that its configuration offers; once past the hellos, a side that requires the extended master secret has it and a client that wants SRTP has a profile. |
| GuardedRuns.HellosHeard | patches/webrtc-dtls/src/flight/flight3.rs:49-190 | For one side against an arbitrary peer, in every run: a client in flight 3 repeats a cookie that has come in a HelloVerifyRequest of version 1.0 or 1.2, a client in flight 5 uses the random of a server hello of version 1.2, and a server past flight 0 that of a client hello of version 1.2. |
| GuardedRuns.PeersProven | patches/webrtc-dtls/src/flight/flight4.rs:118-284 | For one side against an arbitrary peer, in every run: a server in its last flight has no certificates of the client and demands none, or has read a CertificateVerify whose scheme it lists, whose signature verified over the transcript it had then, with certificates it trusts; a client that has prepared its last flight without a shared key has a key share with a listed scheme, a signature that verified for the two randoms and its peer's certificates, and trusts them. |
| GuardedRuns.LostFlightsRepeat | patches/webrtc-dtls/src/handshaker.rs:375-382 | For one side against an arbitrary peer, in every run: when the timer expires, the flight is sent again with the same state and packets, and caches nothing a second time, unless it is the server's second flight, in which nothing changes. |
| FlightGuards.KeyedIff | patches/webrtc-dtls/src/flight/flight4.rs:94-284 | The first half of flight 4 goes through if and only if the keys come and either a proof is there, with certificates, a listed scheme, a signature that verifies over the cached text, and trust, or there is neither proof nor certificate; then the certificates are those shown and count as verified as the policy says. |
| FlightGuards.ForgedProof | patches/webrtc-dtls/src/flight/flight4.rs:213-227 | The answer is bad_certificate for a bad signature if and only if the signature does not verify for the certificates shown, with a listed scheme. |
| Negotiation.OfferedCurveTaken | patches/webrtc-dtls/src/flight/flight0.rs:103-135 | Whatever curve codes a client sends, on the wire and in any order: the server takes the first of secp256r1, secp384r1 and x25519 among them, and refuses only a list without any. |
| Negotiation.ExtensionsTaken | patches/webrtc-dtls/src/flight/flight0.rs:101-166 | Reading a hello's extensions goes through exactly if every list of curves has one that is known and every list of profiles one that is wanted; then the last lists decide, each by its first such entry, and the extended master secret is on exactly if it was or is offered and not disabled. The first bad extension decides the error. |
| Negotiation.HelloPassesIff | patches/webrtc-dtls/src/flight/flight0.rs:69-196 | The server goes on from a hello if and only if the version is right, a suite is shared, every extension is acceptable, its policy on the extended master secret is met and a key pair is there or comes of the curve chosen. |
| Negotiation.FirstHelloChosen | patches/webrtc-dtls/src/flight/flight0.rs:26-196 | A server that goes on has read a hello, and has its random, its first suite that the server wants, its curve, its profile, and a key pair of that curve. |
| Handshakers.Handshaker.constructor | patches/webrtc-dtls/src/handshaker.rs:221-245 | A client starts in flight 1, a server in flight 0. |
| Handshakers.Handshaker.Prepare | patches/webrtc-dtls/src/handshaker.rs:246-314 | The machine after generating a flight: packets numbered on, highest epoch taken over, or the error. |
| Handshakers.Handshaker.NumberPackets | patches/webrtc-dtls/src/handshaker.rs:292-312 | Numbers each handshake message with the next number, leaves ChangeCipherSpecs alone, and moves to the highest epoch. |
| Handshakers.Handshaker.Send | patches/webrtc-dtls/src/handshaker.rs:315-326 | Sends what was prepared; then waits, is finished after flight 6, or has failed. |
| Handshakers.Handshaker.Expire | patches/webrtc-dtls/src/handshaker.rs:375-382 | Sends again, unless the flight is not retransmitted. |
| Handshakers.Handshaker.Wait | patches/webrtc-dtls/src/handshaker.rs:327-373 | Parses the flight and goes on to the next, is finished, keeps waiting, or has failed. |
| Connections.WaitFlight4 | patches/webrtc-dtls/src/flight/flight4.rs:399-430 | Flight 4 in two halves, with the queue read under the new keys between them. |
| ServerSteps.GenerateFlight0 | patches/webrtc-dtls/src/flight/flight0.rs:204-223 | Assignment by assignment, the new state and the result of the specification that HandshakeRuns and HonestHandshakes reason about: a fresh cookie and random, epoch 0, nothing to send. |
| ServerSteps.ParseFlight0 | patches/webrtc-dtls/src/flight/flight0.rs:28-202 | Assignment by assignment, the new state and the result of the specification that HandshakeRuns and HonestHandshakes reason about: version, suite, extensions, key pair, with the alert of each failure. |
| ServerSteps.ReadExtensions | patches/webrtc-dtls/src/flight/flight0.rs:102-163 | The loop over a hello's extensions, each failure ending it where it occurs. |
| ServerSteps.GenerateFlight2 | patches/webrtc-dtls/src/flight/flight2.rs:109-131 | The HelloVerifyRequest with the stored cookie; the send sequence starts again at 0. |
| ServerSteps.ParseFlight2 | patches/webrtc-dtls/src/flight/flight2.rs:29-107 | Goes on only with the stored cookie; falls back to flight 0 if the hello expected is missing. |
| ServerSteps.GenerateFlight4 | patches/webrtc-dtls/src/flight/flight4.rs:500-728 | ServerHello, keys, ServerHelloDone, in that order. |
| ServerSteps.GenerateKeys | patches/webrtc-dtls/src/flight/flight4.rs:560-711 | Certificate, signed key exchange and request, or the pre-shared-key hint. |
| ServerSteps.ParseFlight4Keys | patches/webrtc-dtls/src/flight/flight4.rs:46-397 | The client's key messages, its certificate's proof, and the keys. |
| ServerSteps.CheckCertificates | patches/webrtc-dtls/src/flight/flight4.rs:97-273 | A certificate without proof keeps the server waiting; a proof needs a certificate, a listed scheme, a good signature and trust. |
| ServerSteps.InitializeServerSuite | patches/webrtc-dtls/src/flight/flight4.rs:275-397 | Derives the keys unless the suite has them. |
| ServerSteps.ParseFlight4Finished | patches/webrtc-dtls/src/flight/flight4.rs:413-498 | The client's Finished must be there; then the client authentication policy decides. |
| ServerSteps.GenerateFlight6 | patches/webrtc-dtls/src/flight/flight6.rs:71-189 | ChangeCipherSpec, then the Finished over the whole transcript, computed once. |
| ServerSteps.ParseFlight6 | patches/webrtc-dtls/src/flight/flight6.rs:28-69 | A repeated Finished asks for the flight again. |
| ClientSteps.GenerateFlight1 | patches/webrtc-dtls/src/flight/flight1.rs:119-193 | The hello without cookie. |
| ClientSteps.GenerateFlight3 | patches/webrtc-dtls/src/flight/flight3.rs:346-411 | The same hello with the cookie. |
| ClientSteps.ParseFlight1 | patches/webrtc-dtls/src/flight/flight1.rs:38-117 | A ServerHello is read as in flight 3, a HelloVerifyRequest leads to flight 3. |
| ClientSteps.ParseFlight3 | patches/webrtc-dtls/src/flight/flight3.rs:41-95 | A further HelloVerifyRequest replaces the cookie; otherwise the server's flight is read. |
| ClientSteps.ParseAnswer | patches/webrtc-dtls/src/flight/flight3.rs:97-344 | The server's flight: hello, certificate, key exchange, request, in that order, with the alert of each failure. |
| ClientSteps.HandleServerKeyExchange | patches/webrtc-dtls/src/flight/flight3.rs:414-470 | The pre-master secret from the shared key or from a fresh key pair. |
| ClientSteps.GenerateFlight5 | patches/webrtc-dtls/src/flight/flight5.rs:176-606 | Key messages, predicted text, keys, proof, ChangeCipherSpec, Finished, in that order. |
| ClientSteps.AppendNotYetSent | patches/webrtc-dtls/src/flight/flight5.rs:309-343 | The text of messages not yet sent, with the numbers they are going to get. |
| ClientSteps.InitializeClientSuite | patches/webrtc-dtls/src/flight/flight5.rs:609-778 | Derives the keys once, after checking the server's signature and certificate. |
| ClientSteps.ParseFlight5 | patches/webrtc-dtls/src/flight/flight5.rs:40-173 | Accepts the server's Finished only if it equals the client's own computation. |
| Handshakes.HandshakeRoundTrip | patches/webrtc-dtls/src/handshake/mod.rs:173-242 | A numbered message is written as one whole fragment with a right length field and reads back as the message sent. |
| Headers.RecordHeaderRoundTrip | patches/webrtc-dtls/src/record_layer/record_layer_header.rs:51-93 | Reading what was written gives the header back, whatever follows it. |
| Headers.HandshakeHeaderRoundTrip | patches/webrtc-dtls/src/handshake/handshake_header.rs:25-50 | The same for the handshake header. |
| Messages.BodyRoundTrip | patches/webrtc-dtls/src/handshake/mod.rs:127-170 | For all ten messages, if well formed: size() is the written length and reading gives the message back, the fraction of a second in a hello's random apart. |
| Messages.ClientHelloRoundTrip | patches/webrtc-dtls/src/handshake/handshake_message_client_hello.rs:81-195 | size() is the written length and the hello reads back, with any well-formed extensions and whatever follows it. |
| Messages.ServerHelloRoundTrip | patches/webrtc-dtls/src/handshake/handshake_message_server_hello.rs:60-150 | The same for a ServerHello. |
| Messages.HellosReadBackIff | patches/webrtc-dtls/src/handshake/handshake_random.rs:35-63 | Both hellos read back exactly as written if and only if their random holds whole seconds of thirty-two bits. |
| Messages.FractionLost | patches/webrtc-dtls/src/handshake/handshake_random.rs:35-63 | Two hellos, written half a second past a full second, that read back different. |
| Messages.CertificateRoundTrip | patches/webrtc-dtls/src/handshake/handshake_message_certificate.rs:22-69 | Any list of certificates that fits its length field reads back. |
| Messages.ClientKeyExchangeRoundTrip | patches/webrtc-dtls/src/handshake/handshake_message_client_key_exchange.rs:21-69 | Both forms read back exactly if their length fields hold them; the pre-shared-key test never takes a public key. |
| Messages.ServerKeyExchangeRoundTrip | patches/webrtc-dtls/src/handshake/handshake_message_server_key_exchange.rs:30-132 | A well-formed message reads back exactly if it has a hint or is not 770 bytes long (for a named curve), the one length at which it is taken for a hint. |
| Messages.ExchangeMisread | patches/webrtc-dtls/src/handshake/handshake_message_server_key_exchange.rs:64-83 | A well-formed named-curve message of 770 bytes, with a key of 32 and a signature of 730, that does not read back. |
| Messages.CertificateRequestRoundTrip | patches/webrtc-dtls/src/handshake/handshake_message_certificate_request.rs:32-77 | Known certificate types and schemes read back. |
| Messages.CertificateVerifyRoundTrip | patches/webrtc-dtls/src/handshake/handshake_message_certificate_verify.rs:24-52 | A scheme and a signature read back. |
| Extensions.ExtensionRoundTrip | patches/webrtc-dtls/src/extension/mod.rs:74-129 | Every well-formed extension reads back, whatever follows it. |
| Extensions.MarshalledSize | patches/webrtc-dtls/src/extension/mod.rs:74-101 | size() is the written length, for every extension. |
| Extensions.UnknownExtensionIgnored | patches/webrtc-dtls/src/handshake/handshake_message_client_hello.rs:164-185 | An extension of unknown type between any two others changes nothing in the list that is read. |
| Extensions.UnmarshalBlock | patches/webrtc-dtls/src/handshake/handshake_message_client_hello.rs:164-185 | The loop over a block of extensions equals its specification, the step over unreadable ones included. |
| Extensions.ExtensionsSize | patches/webrtc-dtls/src/handshake/handshake_message_client_hello.rs:81-102 | The sum over the extensions is the written length of all of them. |
| Messages.ReadCertificates | patches/webrtc-dtls/src/handshake/handshake_message_certificate.rs:52-69 | The loop over the certificates equals the specification of CertificateRoundTrip. |
| Messages.WriteCertificates | patches/webrtc-dtls/src/handshake/handshake_message_certificate.rs:32-50 | The loops that sum up and write the certificates, likewise. |
| Codecs.WriteClientHello | patches/webrtc-dtls/src/handshake/handshake_message_client_hello.rs:104-138 | Field after field, the bytes of the specification, or the error for a long cookie and nothing written. |
| Codecs.ReadClientHello | patches/webrtc-dtls/src/handshake/handshake_message_client_hello.rs:140-195 | Field after field, the hello of the specification or its first error. |
| Codecs.WriteServerHello | patches/webrtc-dtls/src/handshake/handshake_message_server_hello.rs:78-102 | Field after field, the bytes of the specification. |
| Codecs.ReadServerHello | patches/webrtc-dtls/src/handshake/handshake_message_server_hello.rs:104-150 | Field after field, the hello of the specification or its first error. |
| Codecs.WriteServerKeyExchange | patches/webrtc-dtls/src/handshake/handshake_message_server_key_exchange.rs:38-58 | The hint alone if there is one, otherwise curve, key, scheme and signature. |
| Codecs.ReadServerKeyExchange | patches/webrtc-dtls/src/handshake/handshake_message_server_key_exchange.rs:60-132 | The running offset and its checks reject exactly what the specification rejects, and read the same fields. |
| Codecs.WriteRecordLayerHeader | patches/webrtc-dtls/src/record_layer/record_layer_header.rs:51-67 | The thirteen bytes of the header, in order. |
| Codecs.ReadRecordLayerHeader | patches/webrtc-dtls/src/record_layer/record_layer_header.rs:69-93 | The header, or the error the first bad field gives. |
| Codecs.WriteHandshakeHeader | patches/webrtc-dtls/src/handshake/handshake_header.rs:25-33 | The twelve bytes of the header, in order. |
| Codecs.ReadHandshakeHeader | patches/webrtc-dtls/src/handshake/handshake_header.rs:35-50 | The header, or the end of the input. |
| Streams.EveryInterleaving | src/stream.rs:106-272 | Under every interleaving of the lock sections: no two entries share a URL; each count is the number of its subscribers and at most the limit; total_peers is the sum of the counts, the decrements in flight and the subscribers of streams removed by force, and positive whenever a decrement is due; an entry back at 0 has a live timer or one about to be stored. |
| Streams.FiringSparesSubscribers | src/stream.rs:247-271 | A timer that fires leaves every stream that has subscribers, and every stream that is not its own, as it is. |
| Streams.ForcedRemovalLeaks | src/stream.rs:218-244 | Removing a stream with n subscribers by force keeps total_peers at n or more in every continuation: those releases find no entry and are never counted off. |
| Streams.AccurateIff | src/stream.rs:218-244 | total_peers is exactly the subscribers there are and the decrements in flight if and only if every forced removal of the run met a stream nobody was subscribed to. |
| Streams.RemovalAccurateIff | src/stream.rs:218-230 | One removal keeps an accurate total accurate if and only if the removed stream's count is 0, which its caller can see under the lock. |
| Streams.RemovalCanMislead | src/stream.rs:218-244 | A reachable registry with an accurate total and a stream of one subscriber, whose removal makes the total wrong. |
| Streams.StreamManager.FindByUrl | src/stream.rs:110-117 | Finds an entry of this URL exactly if there is one. |
| Streams.StreamManager.InsertStream | src/stream.rs:153-177 | Inserts under the fresh identifier unless an entry of this URL has appeared meanwhile, which is then returned. |
| Streams.StreamManager.SubscribeExisting | src/stream.rs:194-215 | Counts one more, stops the timer, and counts the peer; refuses a missing or full stream and changes nothing. |
| Streams.StreamManager.Leave | src/stream.rs:233-242 | Counts one less, not below 0, and tells what is left. |
| Streams.StreamManager.StoreTimer | src/stream.rs:265-270 | Stores the timer if the stream is still there. |
| Streams.StreamManager.FireTimer | src/stream.rs:252-263 | Removes the stream only if nobody is subscribed. |
| Streams.StreamManager.RemoveStream | src/stream.rs:218-230 | Removes the stream, whoever is subscribed, and gives its timer back to be stopped. |
| LiveStreams.EveryInterleaving | src/live.rs:40-121 | Under every interleaving, lost creation races and stale timers included: an entry's count is the number of its outstanding subscriptions, there is an entry with a positive count whenever one is outstanding, no timer that fires takes a relay from a viewer, and an entry back at 0 has a timer that runs or is about to be started. |
| LiveStreams.KeysClashIff | src/live.rs:337-339 | Two streams share a key exactly if they are the same or one URL is the other's MPEG-TS key, which needs a NUL character in a URL. |
| LiveStreams.LiveManager.Join | src/live.rs:48-60 | Joins a running relay and stops its timer. |
| LiveStreams.LiveManager.Start | src/live.rs:65-90 | Inserts a relay with one subscriber unless one has appeared meanwhile, which is joined. |
| LiveStreams.LiveManager.Leave | src/live.rs:92-100 | Counts one less and tells what is left. |
| LiveStreams.LiveManager.StoreTimer | src/live.rs:115-118 | Stores the timer if the entry is still there. |
| LiveStreams.LiveManager.FireTimer | src/live.rs:107-114 | Removes the entry only if nobody is subscribed. |
| Flv.FlvSeqHdrEnd | src/live.rs:292-331 | Equals the tag-by-tag specification of ScannerIff. |
| Flv.ScannerIff | src/live.rs:292-331 | The answer is e exactly if e ends the first complete tag of the tag-by-tag parse that carries a sequence header. |
| Flv.AnswerStable | src/live.rs:292-331 | An answer on a prefix of the stream is the answer on every extension. |
| Flv.InitCache.Feed | src/live.rs:240-265 | Appends a read until the header is complete, then cuts the cache at its end and keeps it. |
| Flv.CacheIsHeader | src/live.rs:240-265 | For every way of cutting the stream into reads: the cache is the stream up to the end of its first sequence header, or all of it while there is none. |
| Sdp.Idempotent | src/signaling.rs:13-71 | Normalising twice is normalising once, on the text itself; the output's lines are the normalised lines of the input. |
| Sdp.OnlyInserts | src/signaling.rs:13-71 | At most two lines, copies of media lines, are inserted at the end of the session part; without them the output is the input's non-empty lines; the media part is unchanged. |
| Sdp.CredentialsAtSessionLevel | src/signaling.rs:22-70 | A credential stands at session level in the output exactly if it stands anywhere in the input. |
| Sdp.WrittenReads | src/signaling.rs:13-20 | Lines that are written with CR LF read back as the same lines. |

## Left out

- Cryptographic algorithms, certificates and signatures: functions, as above.
- The sliding window of the replay detector: only what it promises.
- Sockets, channels, tasks and clocks: a timer is a step that may happen at any time, a send an event of its own, and cancellation between them is part of the interleavings.
- Saved state, `finish()` and everything after the handshake but the delivery of application data.
- A configured initial epoch: it is always 0 where connections are made, and the model has 0.
- The reset of the remote epoch in flights 0 and 1: it happens before anything has been read.
- Sixty-four-bit wrap-around of record counters and signed overflow of message counters: counters are unbounded, the limits the code checks (2^48-1) and the cast to sixteen bits are modelled.
- Handshakers.Handshaker.Prepare: a message that would not read back ends the model's run with InvalidPacketLength where the source sends it: one too long for its length fields, whose lengths the source truncates, and a named-curve ServerKeyExchange of 770 bytes, which the client misreads.
- Reads beyond the end of a buffer: where the source would panic on an index, the model returns BufferTooSmall.
- Records longer than 2^14 bytes that are not fragments: the honest runs send none.
- The choice of a certificate by server name: the configuration holds the certificate that is chosen.
- Alerts as messages of the handshake runs: parsing reports them, and `Notify` sends any alert at any time.
- The peer limit checked outside the lock, stream listings and details, RTSP pullers, FFmpeg processes, relays of media, HTTP handlers, configuration, metrics and URL masking.
- Sdp.OnlyInserts: is about lines; that the text of the output reads back as those lines is Sdp.Idempotent.
- PskRun.InOrderCompletes: is about one client and one server configuration, with a shared key; what the other theorems say of honest runs holds for every configuration.
- HandshakeRuns.EveryRun: says nothing about the content of the client's Finished, which is the subject of ClientFinished, WrongFinished and HonestFinished.
- Transcripts.SameSlotSameItem: assumes honest senders; a stranger's records are the subject of IncomingRecords and HandshakeRuns only.
