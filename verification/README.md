# Mezair: verified models of the mesh and workspace core

Dafny models of the parts of Mezair that carry its hardest promises: the hand-written X25519, the racing of
routes to a machine, four session protocols, three text formats, the route policy and the browser key store.
Each module follows one source file.

| module | models |
|---|---|
| `Prelude` | the option type and two facts about cardinalities |
| `ModularArithmetic`, `Fermat` | congruences, powers, primes, Fermat's little theorem |
| `X25519` | byte codecs, inversion and Montgomery ladder over GF(2^255 - 19), RFC 7748 section 5 |
| `MeshSemaphore`, `RouteRace` | the FIFO semaphore with aborts; `connectMeshRoutes` with its workers, gate, wake and nested bounded operations |
| `NetworkMonitor` | single-flight sampling of the network state on mobile |
| `MachineTransport` | the browser's encrypted stream to a machine: replay cursor, frame sequences, pending requests, send tail |
| `Account` | the mobile account store: generations, serialized writes, availability |
| `BrowserWorkspace` | the generation-guarded phases of the browser workspace hook |
| `CanonicalJson` | the canonical text behind payload hashes, and a reader for it |
| `Base64Url` | the unpadded encoder against the canonicality check |
| `RoutePolicy` | address classes, network hints, order-independent merging of routes |
| `KeyStore` | key arrays in memory maps over a database, with copies, wiping and cascading removal |
| `KeyWrites` | the same saves between their awaits: when a row holds the bytes of its save |
| `PairingPayload` | the pairing string: filter, group, parse |

The protocol modules have one shape. A state holds the fields and module variables of the source and a few
histories; an event is the code between two awaits, a timer, an abort or a callback; `Step` is total, and an
event that cannot happen changes nothing. So every interleaving is a sequence of events, and the theorems speak
of `Run` on any sequence. Beside it a class with the source's fields has one method for each stretch of code,
proved to take the state exactly as the events do.

Where the code and what one would expect of it differ, the model follows the code:

- A sparse array of one missing element and the empty array have the same canonical text, since joining a
  single missing element leaves nothing (`CanonicalJson.SparseArrays`). The normal form identifies the two, and
  with that the text is a complete invariant for all values.
- The empty text is the encoding of no bytes but is never accepted as canonical base64url
  (`Base64Url.AcceptedAreEncodings` holds for n > 0 exactly).
- While the socket opens, its error handler is replaced by one that only rejects the opening promise
  (`browser-workspace-transport.ts:823-833`). A later socket error therefore does nothing by itself; pending
  requests are settled when the socket closes.
- The row of a session is sealed from the caller's own array and that of a trust from the store's copy, both after
  an await. A row need not hold the bytes of its save (`KeyWrites.SessionSealedTooLate`,
  `KeyWrites.TrustSealedTooLate`); `KeyWrites.SessionRowExactly` and `KeyWrites.TrustRowExactly` say exactly when.
- The textbook recursion starts at the leading bit of the scalar. That the loop always runs over 255 bits makes
  no difference because clamping sets bit 254 (`X25519.LeadingBit`).

## Model

| member | source | states |
|---|---|---|
| `X25519.FeMod` | mezair-website/lib/mesh-crypto.ts:48-51 | with the truncating remainder of the source, the canonical representative of every integer, negative ones included |
| `X25519.FeInv` | mezair-website/lib/mesh-crypto.ts:53-64 | the square-and-multiply loop computes x to the P - 2, mod P |
| `X25519.InverseIsFieldInverse` | mezair-website/lib/mesh-crypto.ts:53-64 | given that P is prime, feInv is the inverse of every x not 0 mod P, and 0 of the others |
| `X25519.DecodeUCoord` | mezair-website/lib/mesh-crypto.ts:66-72 | the first 32 bytes as a little-endian integer without its top bit; shorter arrays throw |
| `X25519.TopBitIgnored` | mezair-website/lib/mesh-crypto.ts:68 | masking byte 31 is reduction mod 2^255 |
| `X25519.EncodeUCoord` | mezair-website/lib/mesh-crypto.ts:74-82 | 32 fresh bytes whose little-endian value is u mod P |
| `X25519.EncodeThenDecode` | mezair-website/lib/mesh-crypto.ts:66-82 | decodeUCoord(encodeUCoord(u)) is feMod(u) for every integer u |
| `X25519.LittleEndianInjective` | mezair-website/lib/mesh-crypto.ts:74-82 | 32 bytes are determined by their little-endian value |
| `X25519.ClampScalar` | mezair-website/lib/mesh-crypto.ts:84-90 | a fresh copy whose first 32 bytes have the clamped value; on shorter arrays only what can be masked is |
| `X25519.ClampedRange` | mezair-website/lib/mesh-crypto.ts:84-90 | the clamped value is a multiple of 8 in [2^254, 2^255) and keeps bits 3 to 253 |
| `X25519.BitOfLittleEndian` | mezair-website/lib/mesh-crypto.ts:102 | bit t of the scalar is (scalar[t >> 3] >> (t & 7)) & 1 |
| `X25519.LeadingBit` | mezair-website/lib/mesh-crypto.ts:101-103 | bit 254 of a clamped scalar is set, so the ladder never leaves out leading zeros |
| `X25519.Iterate` | mezair-website/lib/mesh-crypto.ts:109-123 | one iteration is the doubling ((X^2-Z^2)^2, 4XZ(X^2+486662XZ+Z^2)) and the differential addition (4(X2X3-Z2Z3)^2, 4 x1 (X2Z3-Z2X3)^2) mod P of RFC 7748, section 5 |
| `X25519.X25519` | mezair-website/lib/mesh-crypto.ts:93-130 | the deferred-swap loop computes the ladder recursion on the clamped scalar as an integer; it throws exactly for arrays shorter than 32 bytes |
| `X25519.LadderScaled` | mezair-website/lib/mesh-crypto.ts:101-124 | scaling both start points scales both results, by factors that depend on the scalar only |
| `X25519.AffineScaled` | mezair-website/lib/mesh-crypto.ts:129 | x2 * feInv(z2) is the same for all nonzero multiples of a projective point |
| `X25519.ProjectiveIndependence` | mezair-website/lib/mesh-crypto.ts:95-129 | any nonzero multiples of the two start points lead to the same final coordinate |
| `X25519.NonCanonicalCoordinate` | mezair-website/lib/mesh-crypto.ts:95-129 | a u-coordinate and its residue mod P give the same result |
| `Fermat.FermatInverse` | mezair-website/lib/mesh-crypto.ts:53-64 | for a prime p and every a not divisible by p, a times a to the p - 2 is 1 mod p; proved from Euclid's lemma and the binomial theorem |
| `MeshSemaphore.RunKeepsInv` | mezair-app/cloud/contract/machine-route-connect.ts:64-99 | in every interleaving: active is the number of slot holders, never above the limit, and a nonempty queue means no free slot |
| `MeshSemaphore.FirstInFirstOut` | mezair-app/cloud/contract/machine-route-connect.ts:69-97 | whoever entered was overtaken by nobody: earlier arrivals entered before or were aborted |
| `MeshSemaphore.AbortedNeverRuns` | mezair-app/cloud/contract/machine-route-connect.ts:76-93 | a call aborted while queued or between entry and start never runs its operation |
| `MeshSemaphore.SlotsConserved` | mezair-app/cloud/contract/machine-route-connect.ts:91-97 | in every run each call enters at most once and releases at most once, only after it entered; active is the number of entries less the number of releases; once all calls have settled every entered call has released and nobody waits |
| `MeshSemaphore.ReleaseWakesTheOldest` | mezair-app/cloud/contract/machine-route-connect.ts:94-97 | a release hands the slot to the head of the queue, if there is one |
| `MeshSemaphore.Semaphore.constructor` | mezair-app/cloud/contract/machine-route-connect.ts:65-67 | nothing active, nobody queued |
| `MeshSemaphore.Semaphore.Arrive` | mezair-app/cloud/contract/machine-route-connect.ts:69-90 | a call enters, queues, or is rejected at once when its signal is already aborted |
| `MeshSemaphore.Semaphore.Abort` | mezair-app/cloud/contract/machine-route-connect.ts:76-80 | a queued call leaves the queue and is rejected; an entered one is only marked |
| `MeshSemaphore.Semaphore.Resume` | mezair-app/cloud/contract/machine-route-connect.ts:91-93 | an entered call starts its operation, or gives its slot back when it was aborted |
| `MeshSemaphore.Semaphore.Settle` | mezair-app/cloud/contract/machine-route-connect.ts:93-97 | a finished operation gives its slot back |
| `MeshSemaphore.Semaphore.Leave` | mezair-app/cloud/contract/machine-route-connect.ts:94-97 | the finally block: one slot less, the oldest waiter in |
| `RouteRace.SortFacts` | mezair-app/cloud/contract/machine-route-connect.ts:116-118 | the sort by rank keeps the routes and orders them |
| `RouteRace.Conservation` | mezair-app/cloud/contract/machine-route-connect.ts:184-222 | in every reachable state each connection connect() produced has exactly one owner: the caller, one dispose call, or the value in flight |
| `RouteRace.NothingLeaks` | mezair-app/cloud/contract/machine-route-connect.ts:40-60 | once the body has finished, a produced connection was returned or disposed of, not both and not neither |
| `RouteRace.StepKeepsConnections` | mezair-app/cloud/contract/machine-route-connect.ts:13-222 | every timer, abort, late result and continuation keeps that ownership |
| `RouteRace.FailureIsExhaustive` | mezair-app/cloud/contract/machine-route-connect.ts:143-209 | a call that fails without abort or timeout has probed every route exactly once and called connect on every route whose probe succeeded exactly once; each attempt was refused or timed out, and its connection, if it came after all, was disposed of |
| `RouteRace.StepKeepsCalled` | mezair-app/cloud/contract/machine-route-connect.ts:39-44 | an attempt that settles without having called connect was aborted |
| `RouteRace.RemainingIsExact` | mezair-app/cloud/contract/machine-route-connect.ts:127-157 | remaining is the number of routes not yet probed or being probed |
| `RouteRace.FallbackWaitsForGate` | mezair-app/cloud/contract/machine-route-connect.ts:133-181 | before the gate opens only best-ranked routes are probed |
| `RouteRace.BestCandidateFirst` | mezair-app/cloud/contract/machine-route-connect.ts:185-186 | the authenticator takes a ready route of least rank |
| `RouteRace.NoLostWakeup` | mezair-app/cloud/contract/machine-route-connect.ts:187-194 | the main loop never sleeps with a candidate ready or nothing remaining, and something can always still wake it |
| `RouteRace.ProbeSideTerminates` | mezair-app/cloud/contract/machine-route-connect.ts:143-182 | each effective step of the workers, the probes and the gate timer uses up work, so they make finitely many between two decisions of the main loop |
| `RouteRace.SleeperIsWoken` | mezair-app/cloud/contract/machine-route-connect.ts:143-194 | from every reachable sleep of the main loop: the probe side can take at most Work effective steps, and once it has taken them, or can take no other, a wake-up is pending |
| `RouteRace.NothingStartsLate` | mezair-app/cloud/contract/machine-route-connect.ts:210-217 | once the body is over no probe and no connect is called any more, whatever settles late |
| `RouteRace.ThirdLaneIsReserved` | mezair-app/cloud/contract/machine-route-connect.ts:160-181 | as long as a fallback route waits behind the open gate, the third worker is probing a fallback route or takes the next one, whatever becomes of the preferred addresses |
| `RouteRace.RunKeepsInv` | mezair-app/cloud/contract/machine-route-connect.ts:105-222 | connections, route bookkeeping and control flow stay consistent in every run |
| `RouteRace.Race.constructor` | mezair-app/cloud/contract/machine-route-connect.ts:116-137 | the routes by rank, split into best-ranked and the rest |
| `RouteRace.Race.OnStart` | mezair-app/cloud/contract/machine-route-connect.ts:114-195 | the body up to its first await; an empty list and an earlier abort fail at once |
| `RouteRace.Race.RunPreferred` | mezair-app/cloud/contract/machine-route-connect.ts:161-168 | a preferred worker takes the next preferred route, or waits for the gate |
| `RouteRace.Race.RunPreferredAfterGate` | mezair-app/cloud/contract/machine-route-connect.ts:168-171 | past the gate it takes one fallback route, without looking at the abort again |
| `RouteRace.Race.RunFallback` | mezair-app/cloud/contract/machine-route-connect.ts:174-180 | the third worker takes fallback routes first, then preferred ones |
| `RouteRace.Race.OnWorker` | mezair-app/cloud/contract/machine-route-connect.ts:161-181 | which worker loop goes on after which await |
| `RouteRace.Race.Launch` | mezair-app/cloud/contract/machine-route-connect.ts:182 | all three workers start before the main loop looks for candidates |
| `RouteRace.Race.OnProbeSettled` | mezair-app/cloud/contract/machine-route-connect.ts:143-158 | a probe result is kept only while the probes are not aborted; remaining drops and the main loop is woken either way |
| `RouteRace.Race.RunMain` | mezair-app/cloud/contract/machine-route-connect.ts:184-209 | take the best candidate, give up when nothing remains, or sleep |
| `RouteRace.Race.OnMain` | mezair-app/cloud/contract/machine-route-connect.ts:192-204 | the main loop goes on after a wake or a failed attempt, and returns a value |
| `RouteRace.Race.FinishBody` | mezair-app/cloud/contract/machine-route-connect.ts:210-217 | the finally block aborts the probes and opens the gate |
| `RouteRace.Race.AbortAllProbes` | mezair-app/cloud/contract/machine-route-connect.ts:123-142 | aborting the probes opens the gate and wakes the main loop, once |
| `RouteRace.Race.OnOuterAbort` | mezair-app/cloud/contract/machine-route-connect.ts:26-34 | timeout or abort settles the outer operation once and cancels what is under way |
| `RouteRace.Race.OnGateTimer` | mezair-app/cloud/contract/machine-route-connect.ts:136-137 | the head start ends |
| `RouteRace.Race.OnConnected` | mezair-app/cloud/contract/machine-route-connect.ts:45-53 | a value settles a live attempt, and is disposed of when it is late |
| `RouteRace.Race.OnConnectFailed` | mezair-app/cloud/contract/machine-route-connect.ts:54-59 | an error settles a live attempt and is ignored when it is late |
| `RouteRace.Race.OnDelivered` | mezair-app/cloud/contract/machine-route-connect.ts:45-59 | the outer operation resolves with the value, or disposes of it when it has already settled |
| `NetworkMonitor.SingleFlight` | mezair-app/mobile/lib/mesh-network-monitor.ts:69-96 | at most one read is outstanding in every run |
| `NetworkMonitor.AlwaysSampling` | mezair-app/mobile/lib/mesh-network-monitor.ts:54-110 | running, in the foreground and in demand, with every demand change announced: a read is in flight or the poll timer is armed |
| `NetworkMonitor.ChangesAreDifferences` | mezair-app/mobile/lib/mesh-network-monitor.ts:86-92 | changed() was called once for every two successive accepted fingerprints that differ |
| `NetworkMonitor.AcceptedExactlyWhenCurrent` | mezair-app/mobile/lib/mesh-network-monitor.ts:76-92 | a read is accepted exactly when no foreground change and no stop came between and it is still wanted |
| `NetworkMonitor.SilentAfterStop` | mezair-app/mobile/lib/mesh-network-monitor.ts:60-67 | after stop, whatever happens until the next start: no timer is armed, no read begins, none is accepted and changed() is not called |
| `NetworkMonitor.RunKeepsInv` | mezair-app/mobile/lib/mesh-network-monitor.ts:32-119 | the flags, the generations and the histories agree in every run |
| `NetworkMonitor.Monitor.StartMonitor` | mezair-app/mobile/lib/mesh-network-monitor.ts:32-44 | start does nothing while running |
| `NetworkMonitor.Monitor.ChangeForeground` | mezair-app/mobile/lib/mesh-network-monitor.ts:46-52 | a foreground change begins a generation, clears the timers and samples |
| `NetworkMonitor.Monitor.AnnounceDemand` | mezair-app/mobile/lib/mesh-network-monitor.ts:54-58 | an announced demand samples unless a poll is already armed, an announced lack of it clears the timers |
| `NetworkMonitor.Monitor.StopMonitor` | mezair-app/mobile/lib/mesh-network-monitor.ts:60-67 | stop begins a generation and clears the timers |
| `NetworkMonitor.Monitor.OnListener` | mezair-app/mobile/lib/mesh-network-monitor.ts:35-42 | a platform event arms the debounce timer while wanted |
| `NetworkMonitor.Monitor.TakeSample` | mezair-app/mobile/lib/mesh-network-monitor.ts:69-76 | sample up to its await: one read at a time, a second wish is remembered |
| `NetworkMonitor.Monitor.OnRead` | mezair-app/mobile/lib/mesh-network-monitor.ts:77-111 | sample after its await, finally block included |
| `NetworkMonitor.Monitor.AcceptRead` | mezair-app/mobile/lib/mesh-network-monitor.ts:79-92 | the guarded part: compare, tell, remember |
| `NetworkMonitor.Monitor.FinishRead` | mezair-app/mobile/lib/mesh-network-monitor.ts:95-111 | read again if asked to, else arm the poll timer if still wanted |
| `MachineTransport.CursorGate` | mezair-website/lib/browser-workspace-transport.ts:80-97 | with a cursor, exactly the next event of the epoch is accepted and exactly the replayed ones are duplicates |
| `MachineTransport.FramesIncrease` | mezair-website/lib/browser-workspace-transport.ts:903-924 | sequences of the frames handed on strictly increase over every run |
| `MachineTransport.NoSilentGap` | mezair-website/lib/browser-workspace-transport.ts:1004-1044 | two successive onEvent calls are neighbours in one epoch, or a new snapshot was requested between them; in that case onResnapshot was called between them, or the handlers were uninstalled or the connection closed between them |
| `MachineTransport.PendingExactlyUnsettled` | mezair-website/lib/browser-workspace-transport.ts:1097-1161 | an entry and a running timer for exactly the unsettled promises, none once closed |
| `MachineTransport.OutcomesAreFinal` | mezair-website/lib/browser-workspace-transport.ts:1107-1161 | a settled promise keeps its first outcome whatever follows |
| `MachineTransport.OutcomeHasItsCause` | mezair-website/lib/browser-workspace-transport.ts:873-1178 | a promise is settled as answered, refused, timed out or failed to send only by an event about its own request, and as dropped only by an event that fails everything pending |
| `MachineTransport.DropsSettleAll` | mezair-website/lib/browser-workspace-transport.ts:879-1178 | those events, the bad frames, gaps, failed refreshes, revocation, expiry, a lost socket and close, leave no promise unsettled |
| `MachineTransport.AnswerSettles` | mezair-website/lib/browser-workspace-transport.ts:941-949 | an opened answer settles its pending request with that answer, and so does the timer |
| `MachineTransport.EmptyAfterClose` | mezair-website/lib/browser-workspace-transport.ts:1163-1178 | after close the pending map stays empty and the transport closed, for ever |
| `MachineTransport.WireIncreases` | mezair-website/lib/browser-workspace-transport.ts:1046-1095 | sequences put on the wire strictly increase even when sends fail in between |
| `MachineTransport.StepKeepsInv` | mezair-website/lib/browser-workspace-transport.ts:873-1178 | each event keeps delivery order, request bookkeeping and send order, and loses no outcome |
| `MachineTransport.Transport.constructor` | mezair-website/lib/browser-workspace-transport.ts:865-870 | the state right after the handshake, the sequence of the ready frame included |
| `MachineTransport.Transport.SendFrame` | mezair-website/lib/browser-workspace-transport.ts:1074-1095 | the frame is numbered and queued in one go |
| `MachineTransport.Transport.Request` | mezair-website/lib/browser-workspace-transport.ts:1097-1133 | a request is refused, or numbered, pending, timed and queued |
| `MachineTransport.Transport.OnTimeout` | mezair-website/lib/browser-workspace-transport.ts:1113-1116 | the timer of a pending request settles it |
| `MachineTransport.Transport.DropPending` | mezair-website/lib/browser-workspace-transport.ts:1155-1161 | the pass over the map empties it and settles every entry |
| `MachineTransport.Transport.OnFrame` | mezair-website/lib/browser-workspace-transport.ts:873-903 | which frames end the session, are ignored, or are opened |
| `MachineTransport.Transport.OnOpened` | mezair-website/lib/browser-workspace-transport.ts:904-925 | a frame that does not open ends the session; a gap drops the requests and the cursor |
| `MachineTransport.Transport.OnPayload` | mezair-website/lib/browser-workspace-transport.ts:932-1002 | what each kind of payload does |
| `MachineTransport.Transport.OnEventPayload` | mezair-website/lib/browser-workspace-transport.ts:1004-1016 | the replay gate decides between acknowledging, asking for a snapshot and delivering |
| `MachineTransport.Transport.OnEventHandled` | mezair-website/lib/browser-workspace-transport.ts:1015-1023 | the cursor moves only after the handler succeeded |
| `MachineTransport.Transport.Acknowledge` | mezair-website/lib/browser-workspace-transport.ts:1026-1034 | acknowledged only while open and with a cursor |
| `MachineTransport.Transport.RequestResnapshot` | mezair-website/lib/browser-workspace-transport.ts:1012-1023 | the cursor is dropped and the receive tail waits for the snapshot |
| `MachineTransport.Transport.RequestResnapshotLoosely` | mezair-website/lib/browser-workspace-transport.ts:919-922 | the cursor is dropped and the receive tail goes on |
| `MachineTransport.Transport.StartSend` | mezair-website/lib/browser-workspace-transport.ts:1074-1079 | the next send of the tail begins, or fails when the socket is not open |
| `MachineTransport.Transport.CompleteSend` | mezair-website/lib/browser-workspace-transport.ts:1080-1092 | a sealed frame goes out unless the socket is gone |
| `MachineTransport.Transport.OnSendFailure` | mezair-website/lib/browser-workspace-transport.ts:1119-1131 | a failed send settles its own request only |
| `MachineTransport.Transport.RefreshAuthorization` | mezair-website/lib/browser-workspace-transport.ts:1052-1072 | one refresh at a time; an expired authorization ends the session |
| `MachineTransport.Transport.Subscribe` | mezair-website/lib/browser-workspace-transport.ts:1135-1147 | handlers and workspaces are replaced, a subscription is sent while open |
| `MachineTransport.Transport.OnSocketClosed` | mezair-website/lib/browser-workspace-transport.ts:815-822 | a lost socket settles everything and closes |
| `MachineTransport.Transport.Close` | mezair-website/lib/browser-workspace-transport.ts:1163-1178 | closing is idempotent and settles everything |
| `Account.ConnectionsMatch` | mezair-app/mobile/lib/mezair-account.ts:170-193 | in every interleaving of enrolling, refreshing, reading and signing out, a connection handed out pairs an address with a session that came from it |
| `Account.ReadIsCurrent` | mezair-app/mobile/lib/mezair-account.ts:170-176 | when a read ends with a connection, its address is the stored one at that moment |
| `Account.SignedOutStaysOut` | mezair-app/mobile/lib/mezair-account.ts:399-409 | once the write queue is empty, no call that began before a sign-out, nor one of its generation, has its session stored, and address and session match |
| `Account.SignOutEmptiesStorage` | mezair-app/mobile/lib/mezair-account.ts:403-409 | until the next enrolment or sign-out, a finished sign-out leaves both keys empty |
| `Account.EnrolmentIsStored` | mezair-app/mobile/lib/mezair-account.ts:214-234 | an enrolment that succeeded and was not superseded is what storage holds: its address, and a session of its own generation |
| `Account.UnavailableOnlyWhileLed` | mezair-app/mobile/lib/mezair-account.ts:214-234 | the account is unavailable only while an enrolment or sign-out of the current generation is under way |
| `Account.StepKeepsInv` | mezair-app/mobile/lib/mezair-account.ts:29-42 | each step keeps the storage pair, the order of the writes and what every suspended call relies on |
| `Account.WakingSettles` | mezair-app/mobile/lib/mezair-account.ts:172-174 | once the writes a current reader waited for are done, no write left can change the stored address |
| `Account.EnrolmentIsLast` | mezair-app/mobile/lib/mezair-account.ts:152-167 | behind the store of a current enrolment only writes wait that will throw |
| `Account.Variables.constructor` | mezair-app/mobile/lib/mezair-account.ts:29-31 | the module variables at the start, over consistent storage |
| `Account.Variables.StartCall` | mezair-app/mobile/lib/mezair-account.ts:214-218 | enrolling and signing out begin a generation, make the account unavailable and, for a sign-out, queue its write, in one go |
| `Account.Variables.FinishFetch` | mezair-app/mobile/lib/mezair-account.ts:218-230 | the store of a fetched session is queued; a failed fetch ends the call |
| `Account.Variables.RunWrite` | mezair-app/mobile/lib/mezair-account.ts:152-165 | both generation checks and the two storage calls of a write, in order |
| `Account.Variables.FinishWrite` | mezair-app/mobile/lib/mezair-account.ts:166-167 | a call goes on after its write with a third check; a sign-out makes the account available again |
| `Account.Variables.FinishEnroll` | mezair-app/mobile/lib/mezair-account.ts:232-234 | the finally block of an enrolment makes the account available only if it is still current |
| `CanonicalJson.CompleteInvariant` | mezair-app/cloud/contract/sync.ts:326-354 | canonical texts are equal exactly when the normal forms are: keys in any order, undefined members dropped, other undefined, non-finite and non-plain values null |
| `CanonicalJson.ValueReads` | mezair-app/cloud/contract/sync.ts:326-354 | an independent reader gets the normal form back from the text, whatever follows it |
| `CanonicalJson.ParsesUniquely` | mezair-app/cloud/contract/sync.ts:326-354 | a canonical text followed by anything that is not a number's character splits in one way only |
| `CanonicalJson.StringReads` | mezair-app/cloud/contract/sync.ts:330-333 | the escapes of JSON.stringify, lone surrogates included, read back to the string (RFC 8259, section 7) |
| `CanonicalJson.KeyOrderIsForgotten` | mezair-app/cloud/contract/sync.ts:343-352 | records with the same entries in any order have one text |
| `CanonicalJson.SortedAscends` | mezair-app/cloud/contract/sync.ts:344-346 | the keys kept are strictly ascending by code unit |
| `CanonicalJson.SparseArrays` | mezair-app/cloud/contract/sync.ts:340-342 | an array of one missing element prints like the empty one; no other array does |
| `CanonicalJson.HashInputIsComplete` | mezair-app/cloud/contract/sync.ts:369-378 | two changes share a hash input exactly when operation, identity, base revision, schema version and normalised payload agree |
| `CanonicalJson.DecimalReads` | mezair-app/cloud/contract/sync.ts:334-336 | decimal texts of integers read back, so different integers print differently |
| `Base64Url.Encode` | mezair-app/cloud/contract/auth.ts:396-414 | the loop over triplets spells the 6-bit regrouping of the bytes |
| `Base64Url.AcceptedAreEncodings` | mezair-app/cloud/contract/device-security.ts:149-158 | for every n the accepted texts are exactly the encodings of n bytes, except that the empty text is never accepted (RFC 4648, sections 5 and 3.5) |
| `Base64Url.CanonicalFits` | mezair-app/cloud/contract/device-security.ts:149-158 | the length and mask checks say that the digits fit n bytes with zero bits left over |
| `Base64Url.AlphabetIsExact` | mezair-app/cloud/contract/device-security.ts:130-132 | the character class and the 64 symbols agree, each at one place |
| `Base64Url.EncodingIsInjective` | mezair-app/cloud/contract/auth.ts:396-414 | a text encodes at most one sequence of bytes, of any length |
| `Base64Url.RegroupFits` | mezair-app/cloud/contract/auth.ts:396-414 | regrouping bytes as digits can be undone |
| `Base64Url.UngroupFits` | mezair-app/cloud/contract/auth.ts:396-414 | regrouping fitting digits as bytes can be undone |
| `RoutePolicy.PrivateRoutes` | mezair-app/cloud/contract/machine-route-policy.ts:123-168 | the list is strictly ascending and holds exactly the advertised routes: one per address, with a hint exactly when all its endpoints agree on it |
| `RoutePolicy.OrderAndRepetitionDoNotMatter` | mezair-app/cloud/contract/machine-route-policy.ts:123-168 | endpoint lists with the same members give the same list |
| `RoutePolicy.HintSurvivesAgreement` | mezair-app/cloud/contract/machine-route-policy.ts:156-162 | an endpoint's address is listed once, and with its hint exactly when every endpoint of that address gives the same |
| `RoutePolicy.JoinLaws` | mezair-app/cloud/contract/machine-route-policy.ts:156-162 | merging hints is an associative, commutative, idempotent join in which no hint absorbs |
| `RoutePolicy.JoiningHolds` | mezair-app/cloud/contract/machine-route-policy.ts:156-162 | one iteration joins one hint into the Map |
| `RoutePolicy.HintsAreConservative` | mezair-app/cloud/contract/machine-route-policy.ts:104-118 | exactly when each hint is given: the local network only for an explicit, credible declaration |
| `RoutePolicy.SharedRangeIsABlock` | mezair-app/cloud/contract/machine-route-policy.ts:38-47 | the shared range is the block 100.64.0.0/10 |
| `RoutePolicy.PrivateRangeIsFourBlocks` | mezair-app/cloud/contract/machine-route-policy.ts:59-63 | the private ranges are 10/8, 172.16/12, 192.168/16 and 169.254/16 |
| `KeyStore.Wipe` | mezair-website/lib/browser-workspace-auth.ts:178-180 | every byte is zero |
| `KeyStore.Store.constructor` | mezair-website/lib/browser-workspace-auth.ts:636-637 | nothing is kept |
| `KeyStore.Store.Save` | mezair-website/lib/browser-workspace-auth.ts:674-692 | the record is kept with a new copy of its key, the previous key is zeroed, nothing else changes |
| `KeyStore.Store.SaveTrust` | mezair-website/lib/browser-workspace-auth.ts:694-719 | the same for both keys of a trust, with its identifiers checked |
| `KeyStore.Store.Load` | mezair-website/lib/browser-workspace-auth.ts:870-884 | the stored session with a new key array, from the database first |
| `KeyStore.Store.LoadTrust` | mezair-website/lib/browser-workspace-auth.ts:721-744 | the stored trust with new key arrays, from the database first |
| `KeyStore.Store.FindTrust` | mezair-website/lib/browser-workspace-auth.ts:746-782 | a copy of a newest matching trust that has not expired, or nothing when none matches |
| `KeyStore.Store.ListTrusts` | mezair-website/lib/browser-workspace-auth.ts:784-807 | copies of all trusts of the scope |
| `KeyStore.Store.List` | mezair-website/lib/browser-workspace-auth.ts:1024-1069 | copies of the sessions of the scope |
| `KeyStore.Store.Remove` | mezair-website/lib/browser-workspace-auth.ts:1071-1085 | one session goes, its key zeroed |
| `KeyStore.Store.DropBoundSessions` | mezair-website/lib/browser-workspace-auth.ts:815-822 | the pass over memory drops exactly the sessions of the scope bound to the trust and collects their request ids |
| `KeyStore.Store.RemoveTrust` | mezair-website/lib/browser-workspace-auth.ts:809-868 | exactly the trust, its sessions of the scope and their pending commands go: in memory those of the memory sessions, in the database those of both tiers |
| `KeyStore.Store.ClearMemory` | mezair-website/lib/browser-workspace-auth.ts:639-658 | every key of the scope's prefix goes, zeroed |
| `KeyStore.Store.ClearSessionMemory` | mezair-website/lib/browser-workspace-auth.ts:660-672 | the sessions and the pending commands under the scope's prefixes go, the trusts stay |
| `KeyStore.Store.ClearAccount` | mezair-website/lib/browser-workspace-auth.ts:1087-1128 | the same, and the rows of the scope |
| `KeyStore.Store.SavePendingCommand` | mezair-website/lib/browser-workspace-auth.ts:886-966 | expired commands leave memory, a new command beyond 64 of its request or 256 in all is refused, in either tier, a replacement never is; else it is kept in memory and, when the database works, there too, where the expired ones of the request are deleted |
| `KeyStore.Store.RemovePendingCommand` | mezair-website/lib/browser-workspace-auth.ts:1012-1022 | that command goes in both tiers |
| `KeyStore.StoredRequests` | mezair-website/lib/browser-workspace-auth.ts:837-846 | the pass over the rows collects the request ids of the bound sessions |
| `KeyStore.RunCalls` | mezair-website/lib/browser-workspace-auth.ts:639-1128 | over every sequence of calls and every write of a caller to its own arrays: of the arrays the store ever kept, one for each accepted session and two for each accepted trust, none is ever the caller's, those still kept have their bytes and all others are zero; the contents of both tiers are the fold of the calls, which no write of a caller and no read changes |
| `KeyStore.RunCall` | mezair-website/lib/browser-workspace-auth.ts:639-1128 | one call makes of the contents what Apply says, given the bytes in the caller's arrays at that time; no array ever kept is forgotten, and those it drops are zero |
| `KeyStore.SavedKeysSurvive` | mezair-website/lib/browser-workspace-auth.ts:674-692 | a saved session is kept with the bytes its key had when it was saved, through all calls that do not save it again, remove it or clear it, whatever the caller writes to its arrays |
| `KeyStore.SavePendingKeepsCaps` | mezair-website/lib/browser-workspace-auth.ts:886-966 | saving keeps the limits: at most 64 commands of a request in memory and as many in the database, at most 256 in memory |
| `KeyStore.NothingEvicted` | mezair-website/lib/browser-workspace-auth.ts:933-964 | saving, whether accepted or refused, loses no unexpired command but the one it replaces, in either tier, and no other row; what is accepted is kept |
| `KeyStore.ApplyKeepsCaps` | mezair-website/lib/browser-workspace-auth.ts:639-1128 | so does every other call |
| `KeyStore.ClearingCoversScope` | mezair-website/lib/browser-workspace-auth.ts:639-657 | every record of a scope has a key of its prefix, so clearing leaves none |
| `KeyStore.TrustKeyIsInjective` | mezair-website/lib/browser-workspace-auth.ts:165-168 | a trust's key determines its scope and its id |
| `KeyStore.OnlyThatTrust` | mezair-website/lib/browser-workspace-auth.ts:811-814 | the deleted key is that of the named trust and of no other |
| `KeyStore.DoomedExactly` | mezair-website/lib/browser-workspace-auth.ts:837-856 | among well-keyed rows the transaction deletes exactly the trust, the sessions bound to it and the commands of the collected requests |
| `KeyWrites.StepKeepsInv` | mezair-website/lib/browser-workspace-auth.ts:674-719 | with saves and removals under way in any order: the store's copy has the bytes of its save while memory keeps it and is zero from then on, and each row is what its transaction sealed |
| `KeyWrites.SessionRowExactly` | mezair-website/lib/browser-workspace-auth.ts:449-478 | the row of a session holds what its caller's array held when the row was sealed, the last of the caller's writes before that or, without one, the bytes of the save |
| `KeyWrites.TrustRowExactly` | mezair-website/lib/browser-workspace-auth.ts:480-506 | the row of a trust holds the bytes of the save exactly when memory still kept that save as the row was sealed, else zeros, whatever callers wrote |
| `KeyWrites.TrustRowSavedOrZero` | mezair-website/lib/browser-workspace-auth.ts:694-719 | in every run no write of a caller is in the row of a trust |
| `KeyWrites.SessionSealedTooLate` | mezair-website/lib/browser-workspace-auth.ts:674-692 | a run in which a caller overwrites its array during save and the row misses the bytes of the save |
| `KeyWrites.TrustSealedTooLate` | mezair-website/lib/browser-workspace-auth.ts:694-719 | a run in which a trust is removed during saveTrust and its row comes back, zeroed |
| `PairingPayload.Encode` | mezair-app/cloud/contract/sealed.ts:512-528 | the loop groups the normalised body in fives; any part of the wrong length gives null |
| `PairingPayload.RoundTrip` | mezair-app/cloud/contract/sealed.ts:512-545 | decoding an encoded payload gives the normalised code, nonce and secret |
| `PairingPayload.Canonical` | mezair-app/cloud/contract/sealed.ts:512-545 | re-encoding any decodable string gives one canonical string, which decodes alike and re-encodes to itself |
| `PairingPayload.CanonicalIsComplete` | mezair-app/cloud/contract/sealed.ts:512-545 | two strings have one canonical form exactly when they decode alike |
| `PairingPayload.DisplayNormalizes` | mezair-app/cloud/contract/sealed.ts:507-510 | the displayed form of a code normalises to the code |
| `PairingPayload.GroupedFilters` | mezair-app/cloud/contract/sealed.ts:502-504 | filtering undoes grouping |
| `BrowserWorkspace.OnlyOwnersWrite` | mezair-website/lib/browser-workspace.ts:440-443 | a continuation whose generation or account scope is no longer current leaves the phase, the renewal, the poll and the generation alone, and asks for nothing but the removals of a clean-up; each await has its own check, and without any one of them this fails |
| `BrowserWorkspace.StaleContinues` | mezair-website/lib/browser-workspace.ts:485-973 | the same for one callback at each of its awaits |
| `BrowserWorkspace.OnlyCurrentRequestsProceed` | mezair-website/lib/browser-workspace.ts:616-753 | a grant is carried no further, neither checked nor saved nor shown, once its request is neither the one shown nor the renewal |
| `BrowserWorkspace.OnlyRequestsReplace` | mezair-website/lib/browser-workspace.ts:895-963 | what is shown gives way to a pending request only when requestAccess shows a new one or takes back one still shown; a stored session is resumed over nothing but a locked phase |
| `BrowserWorkspace.ShownIsCurrent` | mezair-website/lib/browser-workspace.ts:434-1005 | in every run the phase and the renewal were written by a callback of the current generation and concern the current account |
| `BrowserWorkspace.NothingRevives` | mezair-website/lib/browser-workspace.ts:496-1005 | after a lock of the current account or a change of account, neither a suspended callback nor a call made for another account changes the locked phase |
| `BrowserWorkspace.BumpStales` | mezair-website/lib/browser-workspace.ts:496-1005 | locking the current account and moving to another one begin a generation and leave every callback there is without the scope |
| `BrowserWorkspace.OnePollPerGeneration` | mezair-website/lib/browser-workspace.ts:774-818 | at most one poll of a generation is under way, and it is the one referred to |
| `BrowserWorkspace.OnlySavedGrantsBecomeReady` | mezair-website/lib/browser-workspace.ts:599-770 | a session becomes ready only by a saved grant for the request current then, or by undoing a failed request |
| `BrowserWorkspace.StepKeepsInv` | mezair-website/lib/browser-workspace.ts:434-1005 | each event keeps scope, generation and poll bookkeeping |
| `BrowserWorkspace.Workspace.constructor` | mezair-website/lib/browser-workspace.ts:416-424 | locked, generation 0 |
| `BrowserWorkspace.Workspace.EndSession` | mezair-website/lib/browser-workspace.ts:459-484 | a session with nothing to remove ends at once, else its one or two removals are awaited |
| `BrowserWorkspace.Workspace.FinishEnding` | mezair-website/lib/browser-workspace.ts:488-491 | the renewal goes and the phase is ended, in the same generation |
| `BrowserWorkspace.Workspace.LockSession` | mezair-website/lib/browser-workspace.ts:496-518 | locking: new generation, no renewal, no poll, then one removal for each request |
| `BrowserWorkspace.Workspace.DisconnectSession` | mezair-website/lib/browser-workspace.ts:521-540 | disconnecting locks when there is nothing to revoke, else awaits the revocation |
| `BrowserWorkspace.Workspace.DismissRequest` | mezair-website/lib/browser-workspace.ts:576-583 | what a refused, expired or revoked status ends |
| `BrowserWorkspace.Workspace.AdmitSession` | mezair-website/lib/browser-workspace.ts:745-769 | the session becomes ready and its own renewal is over |
| `BrowserWorkspace.Workspace.ResumeAccept` | mezair-website/lib/browser-workspace.ts:570-770 | acceptStatus after each of its awaits, each with its own check of generation, scope and, for a grant, of the request |
| `BrowserWorkspace.Workspace.PollStatus` | mezair-website/lib/browser-workspace.ts:774-786 | one poll at a time, of a record of the own scope only |
| `BrowserWorkspace.Workspace.ShowRequest` | mezair-website/lib/browser-workspace.ts:901-905 | a request is shown beside a session of the same trust, else instead of it |
| `BrowserWorkspace.Workspace.UndoRequest` | mezair-website/lib/browser-workspace.ts:908-914 | a failed request restores what was shown before, unless something else is shown by now |
| `BrowserWorkspace.Workspace.ResumeRequest` | mezair-website/lib/browser-workspace.ts:838-919 | requestAccess after each of its awaits, each with its own check; a request saved too late is removed again |
| `BrowserWorkspace.Workspace.RestoreSession` | mezair-website/lib/browser-workspace.ts:955-964 | a stored session is shown as pending and polled |
| `BrowserWorkspace.Workspace.ResumeOther` | mezair-website/lib/browser-workspace.ts:470-986 | pollStatus, endSession, lock, disconnect and the resuming effect after each of their awaits, each with its own check or, between two removals, none |
| `BrowserWorkspace.Workspace.TakeStatus` | mezair-website/lib/browser-workspace.ts:805-811 | what an answered poll begins |
| `BrowserWorkspace.Workspace.SwitchScope` | mezair-website/lib/browser-workspace.ts:988-1005 | another account: new generation, locked |

## Left out

- The elliptic-curve group law and the agreement of two Diffie-Hellman parties; the ladder recursion is where X25519 stops here.
- X25519.InverseIsFieldInverse: takes the primality of 2^255 - 19 as its hypothesis, as do X25519.ProjectiveIndependence and X25519.AffineScaled for factors other than 1.
- AES-GCM, HKDF, HMAC, SHA-256, WebSocket, fetch, SecureStore and IndexedDB internals: sealing, opening, storing and fetching are outcomes of events or parameters of calls.
- RouteRace.Conservation: the two semaphores appear as arbitrary delays before a probe or an attempt is called; MeshSemaphore treats them on their own. A single call is modelled, adapters settle at most once, and which error is thrown is reduced to exhausted or cancelled.
- RouteRace.ProbeSideTerminates: bounds the steps of the workers; that timers fire and adapters settle is up to the environment.
- NetworkMonitor.ChangesAreDifferences: changed() and foreground() neither throw nor call back into the monitor, and the JSON text of a fingerprint is represented by its three values.
- MachineTransport: the handshake before the socket is open, subscription ids and the sent flag reported with a failed request; an allowed operation and an unexpired authorization are outcomes of the call.
- Account.ConnectionsMatch: storage calls do not fail and take effect one at a time, and storage starts with both keys or neither. The invalidation of mesh state, the installation id and the revocation request of a sign-out are not modelled.
- CanonicalJson.CompleteInvariant: a finite number is represented by the text String() gives it (0 and -0 share one), and values are finite trees. Integers are printed in decimal, which String() does below 1e21 in magnitude.
- Base64Url: the check without a byte length, and the padded variant, whose length check does not fix the padding count.
- RoutePolicy.PrivateRoutes: the URL parser, the host canonicaliser, Number() and the collation are parameters; the collation is taken to be a strict total order on origins. Route ranks and paths (lines 68-101) are left to the caller of RouteRace, which works with any ranks.
- KeyStore.Store.Save: the array passed in is not one of the store's own; RunCalls shows that no caller can ever hold one.
- KeyStore.Store.FindTrust: which of several trusts of the same age is taken, like the order of KeyStore.Store.List and KeyStore.Store.ListTrusts, is not modelled.
- KeyStore.Store.ClearMemory: says which keys go, not that they all belong to the scope; a scope may contain dots, so prefixes of two scopes can overlap.
- KeyStore.Store.SavePendingCommand: one reading of the clock stands for the three of the source, and a database that answers the listing but fails at the write is not modelled.
- KeyStore.RunCalls: each call runs to its end before the next, and rows that fail to decrypt are not modelled. KeyWrites treats transactions that are still under way. listPendingCommands, which only reads values, appears inside savePendingCommand.
- KeyWrites.SessionRowExactly: arrays are numbered values here, heap objects in KeyStore; a deletion is one transaction for one record, and a trust has one key instead of two treated alike.
- PairingPayload.Encode: strings are sequences of characters; only ASCII letters can match the prefixes when case is ignored.
- BrowserWorkspace.ShownIsCurrent: key bytes, the errors shown, tracked commands, command polling and the direct transport of the hook are not modelled; what an awaited call yields is an outcome of the event.
- The job, attempt and handoff tables, artifact and share contracts, React rendering, the Swift helpers and configuration files.
