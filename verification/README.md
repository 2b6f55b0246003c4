# The overlay's secure channel, modelled and proved in Dafny

The overlay interposes on a process's socket calls and turns every TCP connection into a framed,
mutually authenticated, encrypted channel, while the application keeps calling `send` and `recv`.
This project models that engine and proves what its layers promise together:

- what any network can make a receiver deliver, and whose bytes they are, over every run of many
  sessions in many forking processes (`Security.PrefixSafety`, `Provenance.DeliveredByTrustedPeer`,
  `Security.NonceUniqueness`, `Agreement.HandshakeAgreement`);
- that nothing is lost, repeated or reordered between two ends of a connection that keeps bytes in
  order, and the one configuration in which that fails (`Provenance.ConservedInEveryRun`,
  `Policies.MismatchIsReachable`);
- that the imperative code, with its three bounded buffers and its partial reads and writes, does
  exactly what a function of the session and of the kernel's answers says, and only ever takes steps
  for which those theorems hold (`Interceptor.FdState`, `Calls`);
- what an application is owed: sends that are not refused without cause, receives that hand over what
  has arrived, and, from `connect` on, delivery of every byte between honest ends
  (`Service.SendSucceeds`, `Service.HonestDeliversAll`, `Conversation.MessageIsDelivered`);
- that the locks, the reference counts and the session gauge survive every interleaving of threads
  (`Registry`);
- that the admission webhook's JSON Patch applies, injects what it should, touches nothing else and
  is idempotent (`Webhook`).

## How it is built

**Bytes and frames** (`Bytes`, `Framing`). The length-prefixed codec with its limits, and
reassembly from arbitrary fragments.

**Cryptography** (`Crypto`, `Handshake`). The primitives are a record of functions, `Primitives`,
and `Lawful` lists what is asked of them: decryption undoes encryption and a tag is 16 bytes,
Diffie-Hellman commutes, decapsulation undoes encapsulation, signatures verify, and sizes are those
of section 8 of FIPS 203 and section 4 of FIPS 204. `Crypto.LawsAreConsistent` exhibits primitives
that satisfy them all. Traffic keys and transcript hashes are free terms over their inputs, which
stands for collision resistance of SHA-256 and HKDF (section 2.3 of RFC 5869). Nonces follow the
deterministic construction of section 8.2.1 of NIST SP 800-38D. That a ciphertext opens only if it
was sealed, and a signature verifies only if it was made, is not a law of the functions: it is a
condition on runs, `Network.Ideal`, and it speaks only of ciphertexts that do open and of signature
pairs that do verify, so what is concluded from it rests on the checks the code makes.

**One connection as a value** (`Session`, `Invariants`, `Guarantees`). A session is the descriptor's
state together with its history: bytes handed to and taken from the kernel, hellos, records sealed
and received, bytes delivered. Every intercepted call is a sequence of atomic actions (flush, pull,
handshake, seal, queue, open, deliver, fail, retire). `Invariants.Inv` holds of every reachable state
whatever bytes arrive.

**The imperative engine** (`Interceptor`, `VectorIo`, `OverSocket`). `Interceptor.FdState` is a class
with the descriptor's fields; its methods are the functions of the interceptor, loops included. A
ghost trace records the actions a method takes, and `Valid()` says the fields are what that trace
leads to, so each method is a refinement of the actions. The kernel is a script of results: any
partial size, would-block, end of stream or error; a script that has ended parks the call, which
stands for a blocking call that has not returned. The kernel also remembers, as a ghost, what the
caller held at every receive, whatever came of it.

**What a call does** (`Calls`, `Service`, `Conversation`). `Calls` gives each call's result, the
session it leaves and the answers it used up as a function of the session it found and of the script;
the methods are proved equal to it. `Service` says what that means: which answers cause which
outcome, when a send succeeds, what a receive hands over, and that between honest ends no receive
fails and repeated receives deliver everything. `Conversation` puts the calls together, from
`connect` to the last byte.

**Many sessions, many processes** (`Network`, `Security`, `Agreement`, `Provenance`, `EndToEnd`). A
world holds sessions, a log of every seal and every signature, and the ephemeral values drawn so far. Its acts are connecting,
adopting, any action of any session in any process, and forking. The network is not a component:
a pull may hand over any bytes at all. `EndToEnd` shows that the conditions on runs leave room for
the real thing: a whole run from `connect` to delivery, for any two identities that trust each other.

**Two ends** (`Channel`, `Policies`). A connection that keeps bytes in order. That its two ends hold
each other's keys is a hypothesis here and a theorem of runs in `Provenance`.

**Threads** (`Registry`). A state machine with one point per lock operation of every call and of the
reloader; moves interleave freely.

**The webhook** (`JsonPatch`, `Webhook`). JSON pointers (RFC 6901) with their escapes, the `add` and
`replace` operations (sections 4.1 and 4.3 of RFC 6902), and the patch builder as methods that append
to a patch.

## What the proofs found

- The fallback handshake compares no policies, but a data frame carries its sender's policy suite
  and a receiver insists on its own. Two degraded nodes with one pre-shared key and different
  policies therefore reach an active pair over which nothing is ever delivered; the receiver fails
  closed at the first data frame. Conservation holds exactly when the policies agree or nothing was
  sent (`Policies.ConservedExactly`, `Provenance.ConservedInEveryRun`); a hybrid handshake leaves no
  such gap (`Policies.HybridPoliciesAgree`).
- A vectored read that meets a null entry with a non-zero length returns `EFAULT` after the bytes
  have left the session: they are lost exactly when such an entry comes before all of them are placed
  (`VectorIo.OverlayReadIov`; `VectorIo.ReadIntoNull` is a call that loses one). A vector is safe for
  every amount that may arrive exactly when it has no such entry (`VectorIo.NeverFaultsExactly`).
- The bridge's `write_frame` accepts an empty payload that `read_frame` refuses
  (`OverSocket.ReadBack`); handshake messages are never empty, so no handshake is affected.
- The comment on the registry says its lock guards only map operations. `ensure_tracked` also reads
  the configuration under it (`src/interceptor.rs:482-487`). The lock order still has no cycle
  (`Registry.NoDeadlock`), and the configuration is never held across socket calls.
- The webhook's patch fails to apply when container 0 is not an object, or, in kernel-native mode,
  when `metadata` is missing or not an object; the builder checks neither (`Webhook.BuildPatch`).
- The webhook escapes slashes but not tildes in keys. The spelling is read back as the key exactly
  when no tilde is followed by `0` or `1` (`Webhook.EncodeKeyReadsBack`); its two keys have none.
- A volume, init container or mount that already bears the overlay's name is kept as it is, so the
  patched pod is sure to have an item of that name, not the overlay's own item
  (`Webhook.ItemIsThere`).

## Model

| member | source | states |
|---|---|---|
| Framing.PopEncode | src/interceptor.rs:234-276 | popping an encoded frame followed by anything gives back exactly the frame and the rest |
| Framing.EncodePop | src/interceptor.rs:253-276 | whatever is popped was, byte for byte, an encoded frame at the front of the buffer |
| Framing.PopStable | src/interceptor.rs:253-276 | bytes that arrive later change neither a frame already complete nor a verdict of malformed |
| Framing.FirstFrameUnique | src/interceptor.rs:234-251 | two encodings of one byte string start with the same frame |
| Framing.Frame | src/interceptor.rs:234-251 | framing is refused exactly when the payload is over the limit; otherwise the bytes are the big-endian length, suite, tag and payload |
| Framing.ParseAppend | src/interceptor.rs:253-276 | parsing a stream in two parts, leftover first, equals parsing it whole, error verdict included |
| Framing.ReassemblyIndependentOfChunking | src/interceptor.rs:253-313 | every sequence of appends and pops keeps frames popped, bytes held and verdict in step with parsing the whole stream |
| Framing.ReassemblyFromEmpty | src/interceptor.rs:253-313 | from an empty buffer: same frames, same leftover, same verdict as parsing everything at once, for any fragments |
| Framing.FramesUnique | src/interceptor.rs:234-276 | frames read from a prefix of a stream are the first frames written, and what remains is the encoding of the others |
| Framing.PartialFrame | src/interceptor.rs:253-276 | a prefix of a stream of frames yields the first frame as soon as it is complete, and no frame before |
| Crypto.SuiteIds | src/crypto/mod.rs:152-181 | suite identifiers name one suite each, and neither reserved fallback identifier names one |
| Crypto.NonceInjective | src/crypto/generic.rs:41-45 | different counters give different nonces |
| Crypto.NonceIsCounter | src/crypto/generic.rs:41-45 | read as one 96-bit big-endian number the nonce is the counter |
| Crypto.ExportKtls | src/crypto/generic.rs:93-106 | the exported key is the traffic key, salt and IV together are the 12 bytes expanded from it, in that order, and the record sequence is zero |
| Crypto.MirroredKtls | src/crypto/generic.rs:93-106 | when two ends hold mirrored keys, the key, salt, IV and record sequence exported by each for sending are those of the other for receiving |
| Handshake.ClientAuthUnambiguous | src/crypto/generic.rs:364-370 | the signed client message determines suite and hello |
| Handshake.ServerAuthUnambiguous | src/crypto/generic.rs:372-381 | the signed server message determines suite, client hello and server fields, although nothing is length-prefixed |
| Handshake.TranscriptUnambiguous | src/crypto/generic.rs:383-390 | the transcript hash determines suite and both hellos |
| Handshake.DomainsSeparate | src/crypto/generic.rs:33-36 | client and server messages never coincide, and a fallback transcript is never a hybrid one |
| Handshake.RespondVerifies | src/crypto/generic.rs:233-250 | a responder answers only a hello of the right length that names exactly the two public keys of its trusted peer and carries both of that peer's signatures, verified over the suite and everything before them |
| Handshake.FinishVerifies | src/crypto/generic.rs:303-320 | the same for the answer an initiator accepts, over the suite, its own hello and everything before the signatures |
| Handshake.AnswerMirrorsKeys | src/crypto/generic.rs:233-343 | an initiator that finishes on a responder's answer to its own hello holds that responder's keys mirrored, counters included |
| Handshake.HybridMaterial | src/crypto/generic.rs:252-341 | on both sides the first 32 bytes of input key material are the X25519 secret and the rest the ML-KEM secret |
| Handshake.HybridBindsSecrets | src/crypto/generic.rs:252-341 | ends with mirrored hybrid keys agree on the suite, on both hellos, on the X25519 secret and on the ML-KEM secret |
| Handshake.HonestHandshake | src/crypto/generic.rs:196-343 | two ends that trust each other complete the handshake with mirrored keys, for every secret and every randomness |
| Handshake.HonestFallback | src/crypto/fallback.rs:74-121 | with one pre-shared key the fallback completes, keys mirrored, the confirmation counted on both sides |
| Handshake.FallbackBindsPsk | src/crypto/generic.rs:170-184 | mirrored fallback keys mean the same pre-shared key and the same nonces; different pre-shared keys share no traffic key, whatever the nonces |
| Handshake.HybridEphemerals | src/crypto/generic.rs:130-157 | a hybrid traffic key names the ephemeral public value of the side that writes under it |
| Handshake.FallbackEphemerals | src/crypto/generic.rs:170-184 | a fallback traffic key names the nonce of the side that writes under it |
| Invariants.ConnectInv | src/interceptor.rs:491-533 | every state installed by `connect`, in every posture, satisfies the invariant |
| Invariants.AdoptInv | src/interceptor.rs:470-489 | every adopted state satisfies the invariant |
| Invariants.JudgeSound | src/interceptor.rs:332-448 | an accepted hello yields twin keys, counters that match the records exchanged, the right ephemeral, a reply exactly for a responder, and keys under the pinned suite or, for a fallback chosen locally, under exactly that pre-shared key |
| Invariants.JudgeIntroduces | src/interceptor.rs:332-448 | in each accepting branch both hellos are of the type the keys call for, start with the ephemerals the keys carry, and a fallback responder's carries the confirmation |
| Invariants.HandshakeKeepsInv | src/interceptor.rs:332-448 | accepting a hello keeps the invariant |
| Invariants.SealKeepsInv | src/interceptor.rs:646-681 | sealing and framing a record keeps the invariant |
| Invariants.OpenKeepsInv | src/interceptor.rs:768-807 | opening a data frame keeps the invariant |
| Invariants.StepKeepsInv | src/interceptor.rs:278-841 | every atomic action keeps the invariant |
| Invariants.ReachableInv | src/interceptor.rs:278-841 | every state of every run satisfies it: buffer limits, record numbering, key derivation, and sent, pulled and delivered bytes all accounted for |
| Guarantees.FailedIsAbsorbing | src/fd_state.rs:241-283 | once failed, a state stays failed and empty, and no action sends, receives or delivers a byte |
| Guarantees.PullsAreQuiet | src/interceptor.rs:751-832 | every pull of a trace was made with no plaintext waiting and no complete frame held; `OverlaySend` and `OverlayRecv` state it of every receive they make, with or without bytes |
| Guarantees.PlainNeverOverflows | src/interceptor.rs:768-807 | for any peer, decrypted bytes fit the plaintext buffer: the overflow branch is unreachable |
| Guarantees.DataAlwaysFits | src/interceptor.rs:646-672 | framing a sealed record of at most 64 KiB never fails |
| Guarantees.WireGrammar | src/interceptor.rs:278-448 | what reached the kernel is a prefix of one frame of a hello type and then data frames in seal order, under consecutive counters; the hello is of the type and suite its key calls for, and a fallback responder's is its nonce and the confirmation sealed under counter 0 |
| Guarantees.NoDowngradeFromTheWire | src/kernel_native.rs:245-251 | whatever bytes arrive: if at every handshake step the control plane was up or no pre-shared key was configured, a session not built for the fallback only ever holds keys of its pinned suite |
| Guarantees.ConnectPosture | src/interceptor.rs:491-533 | what `connect` installs, by local configuration alone: the hybrid hello exactly with a policy, the control plane up and an identity; the fallback hello exactly with a policy, the control plane down and a pre-shared key, which is the one kept; otherwise a failed, empty state |
| Guarantees.AdoptPosture | src/interceptor.rs:470-489 | an adopted socket waits for a hello exactly when there is a policy, and has failed otherwise |
| Guarantees.ClientHelloAccepted | src/interceptor.rs:345-370 | a waiting responder takes a client hello if and only if its suite byte is the pinned suite, there is an identity and the hello passes that identity's checks; the reply always fits |
| Guarantees.ServerHelloAccepted | src/interceptor.rs:408-418 | an initiator takes an answer if and only if it is a server hello under the pinned suite, there is an identity and the answer passes that identity's checks |
| Guarantees.FallbackAccepted | src/interceptor.rs:371-407 | a waiting responder takes a fallback hello if and only if its own control plane is down, it has a pre-shared key and the hello is one nonce long |
| Guarantees.FallbackIsLocal | src/interceptor.rs:325-330 | the only action that gives a session a pre-shared key is a handshake step whose own configuration has the control plane down and that key |
| Guarantees.KeysComeFromConfiguration | src/interceptor.rs:325-448 | in every run the keys of a session are of its pinned suite, or derived from a pre-shared key that it was built with or that was configured, control plane down, at one of its handshake steps |
| Channel.FramesInOrder | src/interceptor.rs:253-313 | what a receiver accepted is the front part of what the sender framed, and the rest is exactly what is on the way |
| Channel.RecordsInOrder | src/interceptor.rs:768-807 | the records received are the first records sealed, plaintext and ciphertext |
| Channel.DrainSealed | src/crypto/generic.rs:70-126 | decoding records sealed in order gives back their plaintexts and ends at the sender's counter |
| Channel.StreamConserved | src/interceptor.rs:608-833 | between joined ends under one policy, delivered, waiting and on-the-way plaintext together are exactly the plaintext sealed, for any partial sizes, and the two counters meet |
| Channel.HonestFrameOpens | src/interceptor.rs:768-807 | no complete frame of an honest sender is ever refused |
| Channel.HonestWireBounded | src/interceptor.rs:305-313 | with an honest peer the wire buffer never exceeds 65557 + 8192 bytes, so its limit never trips |
| Policies.HybridPoliciesAgree | src/interceptor.rs:345-418 | ends joined by a hybrid handshake have the same policy suite |
| Policies.MismatchDeliversNothing | src/interceptor.rs:768-807 | ends joined by a fallback under different policies never deliver or decode anything |
| Policies.ConservedExactly | src/interceptor.rs:608-833 | between joined ends conservation holds if and only if the policies agree or nothing was sent |
| Policies.MismatchIsReachable | src/interceptor.rs:371-431 | for every key, nonce pair and message there are runs of two degraded nodes that break it |
| Calls.SplitIsExact | src/interceptor.rs:646-650 | records of at most 64 KiB, none empty, concatenate to the application's bytes |
| Service.FlushExplained | src/interceptor.rs:278-303 | a flush uses answers until the backlog is gone or one stops it; broken exactly when the last answer used is an error, blocked exactly when it is a refusal or a send of nothing; the bytes sent are the front of the backlog, as many as the answers took |
| Service.SendSucceeds | src/interceptor.rs:608-703 | on an active session of this process, with room for the records in the counter and for the frames in the backlog and no error from the kernel, a send returns the full length or is still inside a kernel send, and the session stays active |
| Service.LongSendSucceeds | src/interceptor.rs:608-703 | a message of any length goes through, backlog full or not, while the kernel takes what it is offered and the counter has room: the full length with nothing left behind, or still inside a kernel send |
| Service.HandshakeWaits | src/interceptor.rs:535-584 | as long as the kernel reports no error and has nothing to read, a send leaves a handshake in its phase and reports that it would block, or, in blocking mode, does not return yet |
| Service.HandshakeCompletes | src/interceptor.rs:535-584 | a send during the handshake goes on as on an active session once the next bytes complete a hello that is accepted, with no further read |
| Service.OpensWhatDrains | src/interceptor.rs:768-807 | opening yields exactly the plaintexts of the complete data frames, in order, and keeps the rest; it closes the session exactly when a bad header or a frame that is no next record of the peer follows |
| Service.ReceiveDelivers | src/interceptor.rs:751-832 | a receive on an active session: closed if the bytes held do not decode; otherwise what they decode to is handed over, from the front, without a look at the socket; otherwise the next answer of the kernel decides, and only an overflow closes the session |
| Service.HonestReceive | src/interceptor.rs:713-833 | between honest ends no receive fails or closes the session, whatever part of the bytes in flight arrives and in whatever pieces, and what is handed over is the next part of what was sealed |
| Service.HonestProgress | src/interceptor.rs:713-833 | while anything sealed and sent is not delivered, a receive to which the bytes in flight arrive returns a nonempty next part of it |
| Service.HonestDeliversAll | src/interceptor.rs:713-833 | then repeated receives into a buffer of any size deliver exactly everything sealed |
| Conversation.ServerAnswers | src/interceptor.rs:751-766 | the first receive on an accepted socket answers the greeting, sends the answer and reports that nothing is there yet |
| Conversation.ClientSends | src/interceptor.rs:608-703 | a send right after `connect` sends the greeting, accepts the answer and returns the full length with the whole message sealed in order and sent |
| Conversation.MessageIsDelivered | src/interceptor.rs:491-833 | for any trusting identities, secrets, message that the backlog holds, socket modes, buffer size and pieces of arrival: these two calls and further receives deliver exactly the message |
| Interceptor.DrivenKeepsData | src/interceptor.rs:332-448 | a handshake frame moves no application data and strands no complete hello |
| Interceptor.FdState.constructor | src/fd_state.rs:163-227 | a state starts at the given session with an empty trace |
| Interceptor.FdState.Close | src/fd_state.rs:241-253 | failing closed empties all three buffers and gives back the gauge's count exactly once |
| Interceptor.FdState.FailClosed | src/fd_state.rs:241-253 | the same as a step of the session, with its history unchanged |
| Interceptor.FdState.Activate | src/fd_state.rs:255-266 | activation counts a session once |
| Interceptor.FdState.AppendTx | src/fd_state.rs:229-231 | bytes are appended, all or none, exactly when they fit the limit |
| Interceptor.FdState.TryPopFrame | src/interceptor.rs:253-276 | the frame and the new buffer are those of the codec; nothing changes when there is none |
| Interceptor.FdState.FlushBacklog | src/interceptor.rs:278-303 | outcome, session left and answers used are exactly those of `Calls.RunFlush`; bytes leave the backlog in order and only to the kernel; reported emptied exactly when it is empty |
| Interceptor.FdState.PullWire | src/interceptor.rs:305-313 | one kernel result, each with its exact effect, as in `Calls.RunPull`; an overflow takes nothing in; what was held when asking is on record |
| Interceptor.FdState.QueueFrame | src/interceptor.rs:315-323 | a frame is queued whole exactly when it fits |
| Interceptor.FdState.OnClientHello | src/interceptor.rs:345-370 | the state becomes what the hello dictates, reply queued, or fails closed |
| Interceptor.FdState.OnFallbackHello | src/interceptor.rs:371-407 | the same for a fallback hello, refused unless the local posture is the fallback |
| Interceptor.FdState.OnServerHello | src/interceptor.rs:408-418 | the same for a server hello |
| Interceptor.FdState.OnFallbackFinished | src/interceptor.rs:419-431 | the same for a fallback confirmation |
| Interceptor.FdState.DriveHandshake | src/interceptor.rs:332-448 | the loop does what one frame dictates, and leaves a handshake pending only when no complete frame is held |
| Interceptor.FdState.DriveUntilActiveForWrite | src/interceptor.rs:535-584 | exactly `Calls.RunDriveForWrite`; ready means active; not ready means failed, or a handshake pending in non-blocking mode; application data is untouched and no complete hello is stranded |
| Interceptor.FdState.AppendOrFlush | src/interceptor.rs:586-606 | exactly `Calls.RunQueue`; a sealed frame joins the backlog whole, flushing first if it must, or the call fails with nothing sealed in addition |
| Interceptor.FdState.SendRecord | src/interceptor.rs:646-681 | exactly `Calls.RunRecord`; one record is sealed and queued, or the session fails |
| Interceptor.FdState.InheritedAfterFork | src/interceptor.rs:835-841 | a state in a process that does not own it is failed, exactly then |
| Interceptor.FdState.FailIfStaleIdleConfig | src/fd_state.rs:268-278 | a state is retired exactly when idle and of another epoch |
| Interceptor.FdState.SendRecords | src/interceptor.rs:646-681 | exactly `Calls.RunRecords` on the split of the bytes; the records sealed are a prefix of it, all of it on return, and an error means failed |
| Interceptor.FdState.FinishSend | src/interceptor.rs:683-703 | exactly `Calls.RunFinish`; the final flush only moves the backlog; a blocking send returns with it empty |
| Interceptor.FdState.SendAll | src/interceptor.rs:646-703 | exactly `Calls.RunSendAll`; on an active session: every record sealed, queued and flushed as the mode asks, or the session fails |
| Interceptor.FdState.OverlaySend | src/interceptor.rs:608-703 | result, session left and answers used are exactly those of `Calls.RunSend`; all or nothing: the full length with every byte sealed in order, or -1 and either failed or nothing sealed; -1 on an active session means failed; a foreign or failed state touches neither socket nor history; every receive it makes finds nothing usable at hand |
| Interceptor.FdState.CopyPlaintextToApp | src/interceptor.rs:705-711 | the first waiting bytes move to the application's buffer, the rest of both stays |
| Interceptor.FdState.OpenFrames | src/interceptor.rs:768-807 | exactly `Calls.Opening`; complete frames are opened in order until none is left, or the session fails; nothing is delivered |
| Interceptor.FdState.DriveForRead | src/interceptor.rs:757-761 | exactly `Calls.RunDriveForRead`: flush, drive, flush; application data is untouched and no complete hello is stranded |
| Interceptor.FdState.PullForRead | src/interceptor.rs:813-832 | exactly `Calls.RunPullForRead`; a pull in the receive loop leaves data alone; zero is returned only at the end of the stream |
| Interceptor.FdState.AwaitPlaintext | src/interceptor.rs:751-832 | exactly `Calls.RunAwait`: rounds until there is plaintext to hand over, or a result without any |
| Interceptor.FdState.OverlayRecv | src/interceptor.rs:713-833 | result, session left and answers used are exactly those of `Calls.RunRecv`; the bytes put in the buffer are exactly the bytes newly delivered, the rest of the buffer is untouched; waiting plaintext is returned without a socket call; zero only at end of stream; no complete hello is left behind; every receive it makes finds nothing usable at hand |
| VectorIo.IovTotal | src/interceptor.rs:853-869 | the sum, or `EMSGSIZE` exactly when it exceeds 16 MiB, without overflow on the way |
| VectorIo.GatherIov | src/interceptor.rs:871-888 | the concatenation of the entries, or the first applicable error |
| VectorIo.ScatterIov | src/interceptor.rs:890-911 | the bytes land across the entries in order and the rest of memory is untouched; `EFAULT` exactly when a null entry is met before all are placed |
| VectorIo.OverlayWriteIov | src/interceptor.rs:913-924 | refuses with everything unchanged exactly when the vector is too long or has a null entry; otherwise result, session and answers used are exactly those of one scalar send of the concatenation |
| VectorIo.OverlayReadIov | src/interceptor.rs:926-948 | session and answers used are exactly those of one scalar receive of the total length, and so is the result, with the bytes landing across the entries in order; they are lost, with `EFAULT`, exactly when a null entry is met too early, which for waiting plaintext is known before the call |
| VectorIo.ReadIntoNull | src/interceptor.rs:926-948 | a call that loses a byte: it leaves the session, and the application gets `EFAULT` |
| VectorIo.NeverFaultsExactly | src/interceptor.rs:890-911 | no amount of bytes can be lost if and only if no entry is null with a non-zero length |
| OverSocket.WriteFrame | src/over_socket.rs:57-67 | a payload within the limit is written whole after its length, or as far as the stream took it, with an error exactly then; a larger one is refused with nothing written |
| OverSocket.ReadFrame | src/over_socket.rs:69-79 | the first message of the stream or its error, and on success the stream is left right after it |
| OverSocket.ReadBack | src/over_socket.rs:57-79 | what was written is read back if and only if it is not empty |
| OverSocket.InitiatorHandshake | src/over_socket.rs:83-97 | writes one hello and ends with the keys of finishing on the answer read, or with the matching error, a broken stream included |
| OverSocket.ResponderHandshake | src/over_socket.rs:101-113 | answers the hello read and ends with the responder's keys, or with the matching error, a broken stream included; nothing is written before the hello is accepted |
| OverSocket.BridgedEndsAgree | src/over_socket.rs:83-113 | two trusting ends over one stream end with mirrored keys and equal exported kTLS secrets |
| Network.OnlyOwnersAct | src/interceptor.rs:835-841 | only the process that owns a state changes its history |
| Network.KeyNamesOwner | src/crypto/generic.rs:130-184 | a traffic key is written under by one session of one process |
| Network.NonceNeverReused | src/crypto/generic.rs:70-88 | the key and counter of a new record are in no process's log |
| Network.ForkKeepsGood | src/interceptor.rs:835-841 | forking keeps the invariant of the world |
| Network.RunIsGood | src/interceptor.rs:491-841 | in every run: local invariants, distinct ephemerals, a sound log of seals, and every received record in it |
| Security.PrefixSafety | src/interceptor.rs:713-833 | whatever the network does, what a session delivered is a prefix of the plaintext that one session, the owner of the key it reads under, sealed |
| Security.PeersAreUnique | src/crypto/generic.rs:130-184 | that session is the only one |
| Security.NonceUniqueness | src/crypto/generic.rs:41-88 | no two seals of a run, in whatever processes, use the same key and nonce |
| Security.InheritedIsInert | src/interceptor.rs:835-841 | from the fork on, an inherited session never sends, receives or delivers anything in the child |
| Agreement.FinishPinsAnswer | src/crypto/generic.rs:303-343 | an accepted server signature fixes suite, client hello, server hello and keys of the answer it was made for |
| Agreement.RespondPinsHello | src/crypto/generic.rs:233-250 | an accepted client signature fixes suite and hello |
| Agreement.RunIsTrustworthy | src/crypto/generic.rs:196-343 | in every run every established hybrid session is backed by a signing of its trusted peer |
| Agreement.HandshakeAgreement | src/crypto/generic.rs:303-343 | if an initiator finished, the trusted peer has a session that answered exactly that hello with exactly that answer, under the same suite, with the keys mirrored, both counters from zero and equal exported kTLS material |
| Agreement.ClientAuthentication | src/crypto/generic.rs:233-300 | if a responder answered, the trusted peer has a session that sent exactly that hello under the same suite |
| Provenance.FallbackAgreement | src/crypto/fallback.rs:74-121 | if an initiator holds fallback keys, one session has the mirrored keys, saw its nonce, sent exactly the confirmation it accepted, and chose the same pre-shared key |
| Provenance.PskWasConfigured | src/interceptor.rs:371-407 | in every run of the network the pre-shared key of a session was configured, with the control plane down, at a node that connected or accepted with it |
| Provenance.InitiatorHasPeer | src/interceptor.rs:408-431 | every established initiator, by either handshake, has a peer with the mirrored keys |
| Provenance.WiredEndsAreJoined | src/interceptor.rs:278-448 | two active ends of a connection that keeps bytes in order hold each other's keys, whichever handshake they made |
| Provenance.ConservedInEveryRun | src/interceptor.rs:608-833 | between such ends, in every run, conservation holds if and only if the policies agree or nothing was sent |
| Provenance.DeliveredByTrustedPeer | src/interceptor.rs:713-833 | what a hybrid session delivered is a prefix of what one session sealed, and that session made its half of the handshake under the trusted identity |
| EndToEnd.HellosWork | src/crypto/generic.rs:196-343 | under either suite both hellos fit one 8 KiB pull and each side accepts the other's, keys mirrored |
| EndToEnd.MessageArrives | src/interceptor.rs:491-833 | for any trusting identities, secrets and message that fits one pull, a run of the world ends with exactly the message delivered |
| Registry.NextKeepsOrder | src/interceptor.rs:458-505 | every move of every thread keeps mutual exclusion, live references, no leak and an exact gauge |
| Registry.GaugeIsExact | src/fd_state.rs:241-266 | in every interleaving the gauge is the number of live active states, each counted once, and a state exists exactly while the registry or a thread refers to it |
| Registry.GaugeReturnsToZero | src/fd_state.rs:326-336 | with every descriptor closed and every call returned, no state is left and the gauge is zero |
| Registry.NoDeadlock | src/interceptor.rs:458-505 | threads never wait in a circle, not even behind a queued writer of the configuration, and no chain of waiting exceeds five threads |
| Registry.LockDiscipline | src/fd_state.rs:346-355 | nobody holds the registry or the configuration in a socket call, holds anything while waiting for a state, or holds two states |
| Registry.SomeoneMoves | src/interceptor.rs:1294-1311 | every call in progress can be taken further by some thread, without a reader going past a queued writer; for `close` and every other waiter on the registry, by one that is not in a socket call |
| Registry.RegistryIsHeldBriefly | src/interceptor.rs:465-489 | the holder of the registry gives it up within three of its own moves |
| Registry.OnlyTheHolderWrites | src/fd_state.rs:379-396 | only the holder of a state's lock changes the state |
| Registry.StateInUseIsSafe | src/interceptor.rs:1301-1309 | a state a thread refers to survives every move of the others, `close` and replacement included, and keeps its contents while locked |
| Registry.EntryChanges | src/interceptor.rs:470-505 | under each descriptor `close` leaves nothing, `connect` and tracking leave a new state no one else refers to, tracking only where nothing was, and every other move leaves the entry alone |
| Registry.ClosedStaysClosed | src/interceptor.rs:1294-1311 | a closed descriptor stays unknown, whatever the other threads do, until it is connected or tracked again |
| Registry.LookupFinds | src/interceptor.rs:465-468 | a lookup goes on with the state registered at that moment, or with none |
| Registry.TrackingEnds | src/interceptor.rs:470-489 | tracking looks a descriptor up only once it is in the map, and probes or inserts only where it is not |
| Registry.CellChanges | src/fd_state.rs:241-278 | a retirement closes a state exactly if it is idle under an older configuration, only a pending state is activated, and a failed one stays failed |
| Registry.EpochAdvances | src/fd_state.rs:398-411 | a reload starts the next configuration, and nothing else does |
| Registry.SweepVisits | src/fd_state.rs:379-396 | the reloader takes a state's lock exactly when no one else holds it, never waits for one, and goes through its states one by one |
| JsonPatch.ParsePointerSpelled | src/bin/webhook.rs:348-362 | reading a spelled pointer gives back its tokens, whatever characters they hold |
| JsonPatch.ParsePointerByHand | src/bin/webhook.rs:226-236 | a last part written by hand, without a slash, is read back unescaped |
| JsonPatch.IndexRoundTrip | src/bin/webhook.rs:319-322 | an array index written in decimal is read back |
| JsonPatch.PerformDeep | src/bin/webhook.rs:348-362 | an operation acts on the value its path leads to and rewrites nothing but the way there |
| Webhook.NamedItemIndex | src/bin/webhook.rs:368-374 | the first item of that name, or none if there is none |
| Webhook.PushVolumePatch | src/bin/webhook.rs:242-254 | appends the operations that give the volume list an item of that name |
| Webhook.PushInitContainerPatch | src/bin/webhook.rs:256-293 | the same for the init container |
| Webhook.PushTargetContainerPatch | src/bin/webhook.rs:295-346 | appends the mount and `LD_PRELOAD` operations, or reports a missing container and appends nothing |
| Webhook.PushMetadataField | src/bin/webhook.rs:219-240 | appends the operation that sets one field, none if it is set |
| Webhook.ListOpsApply | src/bin/webhook.rs:242-254 | on any document with an object at the parent, the list operations apply and only the list changes |
| Webhook.PreloadOpsApply | src/bin/webhook.rs:315-344 | the same for the environment |
| Webhook.FieldOpsApply | src/bin/webhook.rs:219-240 | the same for a metadata field, for every key whose spelling reads back |
| Webhook.PodShape | src/bin/webhook.rs:179-187 | the builder's check holds exactly of objects with an object spec and a non-empty array of containers |
| Webhook.BuildPatch | src/bin/webhook.rs:179-200 | refuses exactly the pods without containers, with the right message; otherwise the operations applied one by one give the intended pod if and only if container 0 (or `metadata`, in kernel-native mode) is an object |
| Webhook.InjectionIsComplete | src/bin/webhook.rs:242-346 | the patched pod has the volume, the init container, the mount and, first of its name, the overlay's `LD_PRELOAD` |
| Webhook.PreloadIsTheCopiedFile | src/bin/webhook.rs:256-344 | the path preloaded is the file the init container copies, seen through the application's own mount of the same volume |
| Webhook.InjectionIsConfined | src/bin/webhook.rs:256-313 | the init container has no root, no new privileges, no capabilities and a read-only root file system, and the application's mount is read-only |
| Webhook.InjectionFrame | src/bin/webhook.rs:242-346 | every other member, container, list entry and list order is kept; a list gains at most the overlay's item, the environment nothing but a missing `LD_PRELOAD` |
| Webhook.MarkingFrame | src/bin/webhook.rs:202-240 | kernel-native mode sets its two fields and keeps everything else |
| Webhook.PatchIsIdempotent | src/bin/webhook.rs:179-200 | the patched pod is patchable and patching it again changes nothing, in both modes |
| Webhook.ItemIsThere | src/bin/webhook.rs:364-374 | a list ends up with an item of that name, the old list in front, and stays as it is the second time |
| Webhook.EncodeKeyReadsBack | src/bin/webhook.rs:226-236 | a key written with slashes escaped is read back if and only if no tilde in it starts an escape |

## Left out

- The insides of AES-GCM, HKDF, SHA-256, X25519, ML-KEM, Ed25519 and ML-DSA: abstract functions with the laws of `Crypto.Lawful`; unforgeability is the condition `Network.Ideal` on runs, fresh ephemerals are the condition `Network.Possible`.
- Invariants.StepKeepsInv: the atomic actions are those of the calls; that each call is made of them is what the methods of `Interceptor.FdState` state, one descriptor at a time.
- Network.RunIsGood: process identifiers are never reused, as a fork takes a new one.
- Security.PrefixSafety: confidentiality is not modelled.
- EndToEnd.MessageArrives: one message of at most 8170 bytes from initiator to responder; it shows that such runs of the network exist, the general statements are `Provenance.ConservedInEveryRun` and `Conversation.MessageIsDelivered`.
- Conversation.MessageIsDelivered: the two hellos arrive whole and the kernel takes the client's bytes as offered; other sizes and answers are what `Service` is about.
- Service.SendSucceeds: sufficient conditions; which other sends succeed depends on how much the kernel takes in between, as `Calls.RunSend` says.
- Provenance.FallbackAgreement: names a session and no identity; a fallback handshake is authenticated by the pre-shared key alone.
- Provenance.WiredEndsAreJoined: for ends in the processes that own them; a copy inherited over a fork is inert (`Security.InheritedIsInert`).
- Agreement.ClientAuthentication: a replayed client hello is accepted and answered, as in the source, so several responder sessions may name one sender.
- Registry.SomeoneMoves: states that some thread can move, not that it will; fairness of locks and of the kernel is not modelled.
- Registry.NextKeepsOrder: of a descriptor's state only stage, count, idleness and epoch are kept; several reads of the configuration in one call are one read that may repeat; lock poisoning is left out.
- Interceptor.FdState.OverlaySend: liveness of a non-blocking backlog and of retries in blocking mode depends on the kernel; the loops end with the script.
- Webhook.BuildPatch: serialization, base64 and the admission envelope are left out; environment variables are parameters.
- Webhook.InjectionIsComplete: an existing item of the overlay's name counts as the volume, init container or mount, as in the source.
- VectorIo.IovTotal: entry lengths are at most 2^64 - 1; a null entry array and pointer validity are left out.
- The traffic directions and session keys are values inside the phase; sealing and opening return the advanced direction instead of updating it in place.
- Symbol resolution, errno plumbing, panic shields and raw pointers: foreign-call mechanics.
- Read flags (`MSG_PEEK`, `MSG_OOB`), `dup` of descriptors and `sendfile`, `splice` and `sendmmsg`, which are refused on tracked sockets.
- Zeroization beyond the emptied buffers, handshake latency, telemetry and every metric but the session gauge.
- kTLS installation, descriptor passing, the eBPF program, the daemon and its transports, file watching.
- Policy and identity parsing, hex decoding and the `KernelSockEvent` layout: easy or fixed-size members.
