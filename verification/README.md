# Postamat transfer protocol: a verified model

Postamat moves a file from a sending daemon to a receiving daemon over an
encrypted chunk stream that may break and resume any number of times. This
project models the protocol, the job stores and the live receiver around it, the
signaling rooms of the server, and two stand-alone algorithms, and proves what
each of them keeps over every run. `dafny verify dfyconfig.toml` checks all of it.

## How it is built

Everything the program updates in place is a class with the same fields
(`Receiver`, `DataChannel`, `JobManager`, `FileStore`, `Inbox`, `RoomManager`,
`PresenceRegistry`) or a method with the same loop (`StreamReader`,
`WaitForBackpressure`, `RunLiveReceiverOnce`, `UniqueDestination`, `Itoa`, `ReadRPCMessage`). Each method
is proved equal to a function of the old state; runs of those functions carry the
theorems. Lemmas named `...Exactly` or `...Means` say what an operation gives in each
case without naming the functions that compute it.

| files | content |
|---|---|
| `GoIntegers` `Decimals` `Division` `Wrappers` | wrapping integers, numerals, the few facts about division |
| `ChunkCrypto` `Frames` | sealed chunks and their additional data, frames and their validation |
| `Receiver` `ReceiverLatch` | the receiving state machine and its invariant over any messages |
| `Sender` `Simulation` `Backpressure` | the sending loop; sender and receiver in lockstep over an ordered channel; what the channel buffers |
| `PrefixSafety` `NetworkSafety` | the received file against an arbitrary network |
| `Resume` `ResumeChain` `ChunkCounts` | resume points, chains of cut attempts, sequence numbers that do not drift |
| `Jobs` `JobRuns` `JobOrder` | the job store, its event log, its orders |
| `JobDrivers` `DriverRuns` | the multi-step drivers, run alone and interleaved step by step |
| `Files` `LiveProgress` `LiveReceiver` | commit without replacing; the daemon's receive attempt, call by call |
| `Signaling` `IncomingEnvelopes` `MessagesHeard` `RetryHandshake` | who may send what, how jobs follow messages, from a break to the next attempt |
| `EndToEnd` `Completion` | both daemons, the server and the network as one step relation: safety in every run, and the run that completes |
| `Inbox` `InboxClashes` | destinations for accepted offers, and what can clash with them |
| `Offers` `OfferGaps` | their correspondence with jobs, an offer as one step and part by part |
| `Rooms` `RoomRuns` | nested socket maps, presence, active transfers, with connecting and detaching as one step each |
| `RoomSteps` `PresenceGaps` `LookupGaps` `ActiveGaps` | the same with the lock free wherever the program lets go of it |
| `RpcFraming` | framed and line-delimited messages of the command-line server |

## Idealisations

* SHA-256 (section 6.2 of FIPS 180-4) is an uninterpreted function value. Results
  that rest on it say "or a digest collision", with the two colliding inputs.
* AES-256-GCM is an AEAD in the sense of sections 5.1 and 5.2 of RFC 5116: a
  ciphertext is 16 octets longer than its plaintext, opening inverts sealing, and
  a delivered frame opens only if some recorded seal produced it under the same
  additional data. The log of seals holds every transfer under the key, by every
  attempt; `NetworkSafety` builds it from actual runs of the sender.
* A JSON message is either unreadable or one record. Random job ids are fresh.
* A file system is a map from path to bytes. No other process touches it during a
  step, and a transfer has one live receiver. An inbox search needs fewer files
  and reservations than an int64 counts.

## What the code does not give, proved

* Resuming through the local API claims the job first, so the sender starts over
  while the receiver resumes: `Resume.ResumePointsAgreeExactly` says when the two
  agree (exactly when the sender's snapshot is still Retryable, or nothing was
  received), `Resume.ClaimedResumeIsRefused` that the stream is otherwise refused
  at its first frame.
* `sequenceForOffset` counts chunks right exactly while offset + size - 1 fits an
  int64 (`Resume.SequenceForOffsetExact`).
* A resume away from a chunk boundary can raise the final chunk count by one, and
  never more (`ChunkCounts.ResumeMovesCountByAtMostOne`).
* `completeTransferJob` checks and completes in two steps. It completes a send job
  short of its size if and only if the last progress reported in between is below
  the size (`DriverRuns.CompletesShortExactly`, `DriverRuns.ShortCompletionHappens`).
* A sender that has not heard of the whole size refuses the announcement of
  completion, although the receiver has completed: it completes if and only if its
  stored progress is its size at that moment (`IncomingEnvelopes.CompletionHeardExactly`,
  `Completion.UndisturbedTransferCompletes`).
* A new destination holds less than the file exactly while a commit is copying, or
  after one that failed while copying and could not be cleaned up
  (`EndToEnd.DestinationExactly`); what is left behind blocks the transfer for good
  (`EndToEnd.LeftBehindBlocks`).
* Only inbox destinations are kept apart. The metadata file or the partial file of
  one reservation can take the destination of another if and only if two offered
  names reach one another with that suffix (`InboxClashes.NamesClashExactly`); for
  metadata, never if no offered name ends in its suffix
  (`InboxClashes.MetadataClashExactly`).
* An offer whose key envelope opens to the zero key fails after its job has been
  created; offered again it is answered as accepted
  (`Offers.OfferAddsAPairOrNothing`, `Offers.RepeatedOffersChangeNothing`).
* Registering and attaching, and detaching and dropping presence, are two steps each.
  Presence and rooms then agree on a device if and only if, at its last drop since
  its last registration, no socket of it was attached or about to be
  (`PresenceGaps.PresenceAgreesExactly`).
* Finding a message's target and tracking its transfer are two steps too. An active
  transfer names an agent that is offline if and only if it was last tracked with
  that agent while the agent was offline, and the agent has not attached since; no
  callback is due until it has (`ActiveGaps.TrackedOfflineExactly`,
  `ActiveGaps.LateTrackingHappens`). So active transfers name online agents only, at
  every time, if and only if each tracking of a message with a transfer came while
  its target was attached and its sender was, or was left empty
  (`ActiveGaps.ActiveStayOnlineExactly`).
* The target is looked up in two steps, and a message is refused exactly when its
  target has no transfer socket at the first and no always-on one at the second
  (`LookupGaps.RefusedExactly`), so an agent that always has a socket attached can
  still be refused as offline (`LookupGaps.OfflineThoughOnline`).
* An offer looks for a job, reserves its place and creates its job in separate
  steps. An inbox entry stays without a job if and only if the transfer was bound to
  another job in between (`OfferGaps.EntryHasJobExactly`, `OfferGaps.OrphanHappens`).
* A sender with a limit on buffered bytes exceeds it by at most the chunk frame just
  sent, and by the manifest frame on top of the last chunk's, as the manifest is not
  waited for (`Backpressure.BufferStaysBounded`). The daemon's live sender sets no limit.

## Model

| member | source | states |
|---|---|---|
| ChunkCrypto.ChunkAADInjective | internal/p2p/crypto.go:172-174 | the additional data names transfer, sequence and offset without ambiguity, colons in ids included |
| Frames.EncodedFramesDecode | internal/p2p/chunks.go:88-119 | what the encoder lets through the decoder returns, a missing version filled in; what the decoder takes the encoder gives |
| Frames.FaultsExactly | internal/p2p/chunks.go:110-187 | if and only if: which frames are refused, and which error each malformed one meets, the version first |
| ReceiverProtocol.Receiver.constructor | internal/p2p/receiver.go:33-35 | a new receiver has taken and hashed nothing |
| ReceiverProtocol.Receiver.Resume | internal/p2p/receiver.go:37-61 | if and only if: when it takes up a partial file: same non-empty transfer, offset within the total, prefix readable, long enough and of the named digest; each error; then position and sequence are the manifest's |
| ReceiverProtocol.ForeignPrefixIsRefused | internal/p2p/receiver.go:55-57 | a manifest made from one prefix is refused over bytes that do not begin with it, or a digest collision is exhibited |
| ReceiverProtocol.Receiver.Accept | internal/p2p/receiver.go:77-119 | one message, with every error and the latch, is one step of the receiver |
| ReceiverProtocol.Receiver.AcceptChunk | internal/p2p/receiver.go:121-152 | sequence, offset, decryption and a whole write are checked before position and hash move |
| ReceiverProtocol.Receiver.AcceptManifest | internal/p2p/receiver.go:154-161 | a manifest completes only when size, count and digest are those of what was hashed |
| ReceiverProtocol.Receiver.ResumePointFor | internal/p2p/receiver.go:70-75 | the resume point is position, sequence and digest of what was hashed |
| ReceiverLatch.ChunkTakenExactly | internal/p2p/receiver.go:77-152 | if and only if: which message is taken as a chunk |
| ReceiverLatch.ManifestTakenExactly | internal/p2p/receiver.go:104-161 | if and only if: which message is taken as the manifest |
| ReceiverLatch.AcceptEffect | internal/p2p/receiver.go:77-152 | a call takes one chunk whole or leaves position and hash alone |
| ReceiverLatch.LatchInvariant | internal/p2p/receiver.go:77-161 | over any messages: offset is hashed bytes, sequence is start plus accepted chunks, complete and failed exclude each other, written is hashed but for a torn last write |
| ReceiverLatch.LatchHolds | internal/p2p/receiver.go:77-95 | a complete or failed receiver never changes again and refuses everything |
| ReceiverLatch.ManifestDescribesHashedBytes | internal/p2p/receiver.go:104-161 | a returned manifest has length, count and digest of what was hashed, and ends the run |
| ReceiverLatch.InterruptedReceiverResumes | internal/p2p/receiver.go:37-75 | reporting a resume point and resuming from it undo each other, after any messages |
| PrefixSafety.OpenedChunkIsSlice | internal/p2p/crypto.go:112-145 | a chunk that opens at an offset is the source's own slice there |
| PrefixSafety.AttemptStartIsAReceiver | internal/p2p/receiver.go:33-61 | both receiver constructors make the states that attempts start from |
| PrefixSafety.FileIsAlwaysAPrefix | internal/p2p/receiver.go:77-152 | whatever the network delivers over any chain of attempts, the file is a prefix of the source |
| PrefixSafety.FullManifestMeansWholeSource | internal/p2p/receiver.go:104-161 | a manifest of the full size, whoever sent it, means the file is the source |
| NetworkSafety.SendersKeepTheLogHonest | internal/p2p/sender.go:143-167 | senders only ever seal slices of their own sources at the offsets they name |
| NetworkSafety.NoNetworkSpoilsTheFile | internal/p2p/sender.go:35-106 | senders, arbitrary network and restarted receiver together: always a prefix of the source |
| NetworkSafety.UndisturbedStreamFinishes | internal/p2p/sender.go:61-106 | with a working reader and channel the stream finishes, fresh or resumed, however reads are split |
| SenderProtocol.SendChunk | internal/p2p/sender.go:143-167 | a frame reaches the channel, and the hash its plaintext, only when everything went well |
| SenderProtocol.StreamReader | internal/p2p/sender.go:35-106 | the loop with resume check, sentinel and manifest sends exactly the stream's frames and returns its result |
| SenderProtocol.LoopEndsExactly | internal/p2p/sender.go:61-83 | where the loop ends and with what: the first turn that does not pass |
| StreamSimulation.StreamSealsHonestly | internal/p2p/sender.go:61-94 | everything sealed is the source's slice; a finished stream has hashed the whole source |
| StreamSimulation.StreamSyncs | internal/p2p/sender.go:61-94 | an unfinished stream: every frame sent is accepted, both ends hashed the same |
| StreamSimulation.FinishedStreamIsReceived | internal/p2p/sender.go:53-106 | a finished stream, fresh or resumed, completes the receiver to the source and its manifest is returned unchanged |
| StreamSimulation.FreshStreamIsReceived | internal/p2p/sender.go:61-106 | for every source, the empty one with its sentinel included, and every split of its reads |
| Backpressure.WaitForBackpressure | internal/p2p/sender.go:169-193 | the polling loop ends with the buffer at or below the limit, or fails |
| Backpressure.WaitsExactly | internal/p2p/sender.go:169-193 | it waits exactly while the level is above the limit, whatever the number of polls, and fails at the first that cannot go on |
| Backpressure.BufferStaysBounded | internal/p2p/sender.go:61-167 | over every stream, drain and wait: right after each chunk its frame and at most the limit more are buffered; right after the manifest at most that of the last chunk and the manifest's frame |
| Resume.SequenceForOffsetExact | internal/agentd/transfer_runtime.go:401-406 | the re-derived sequence is the number of chunks if and only if the sum does not overflow |
| Resume.SequenceForOffsetIsChunks | internal/agentd/transfer_runtime.go:401-413 | for ordinary sizes, zero included, the sequence is the ceiling of offset over size |
| Resume.SequenceInOwnChunks | internal/agentd/transfer_runtime.go:401-413 | the same in the caller's own chunk size when positive, in the default size otherwise |
| Resume.ResumePointsAgree | internal/agentd/backend_client.go:1085-1127 | two Retryable snapshots with one progress give one resume point, or both start over |
| Resume.ResumePointsAgreeExactly | internal/agentd/backend_client.go:1085-1127 | if and only if: when sender and receiver agree |
| Resume.ResumedStreamIsReceived | internal/agentd/transfer_runtime.go:313-338 | the resumed stream is accepted from its first frame to its manifest and completes the partial to the source |
| Resume.ClaimedResumeIsRefused | internal/agentd/api.go:199-224 | after a claim the stream is refused at its first frame and nothing is written |
| ResumeChain.LegExtendsPrefix | internal/agentd/transfer_runtime.go:100-248 | one attempt, cut anywhere, grows the prefix by what was accepted; if it finishes, the partial is the source |
| ResumeChain.WholeLegFinishes | internal/agentd/transfer_runtime.go:100-248 | an attempt whose stream finishes and arrives whole accepts exactly the missing bytes and leaves the source, with the sender's manifest |
| ResumeChain.StalePartialIsLeftAlone | internal/p2p/sender.go:108-141 | a partial that is no prefix stops the sender's resume check, or a collision is exhibited |
| ResumeChain.ChainDelivers | internal/agentd/transfer_runtime.go:313-338 | any number of cut attempts: still a prefix, grown by exactly the accepted bytes; a finish means the source |
| ResumeChain.ChainFromNothing | internal/agentd/transfer_runtime.go:100-248 | a chain that finishes from nothing has accepted every byte exactly once |
| ChunkCounts.LoopCountsChunks | internal/p2p/sender.go:61-83 | at every chunk boundary the running sequence is the one re-derived from the offset |
| ChunkCounts.FinishedCount | internal/p2p/sender.go:53-96 | the chunk count of a finished encrypted stream, sentinel included |
| ChunkCounts.ResumeMovesCountByAtMostOne | internal/agentd/transfer_runtime.go:401-406 | exactly when a resume point costs one more chunk, and never two |
| ChunkCounts.CountNeverDrifts | internal/agentd/transfer_runtime.go:313-338 | after any interruptions the manifest counts the file's chunks, or one more; at a boundary exactly |
| Jobs.JobManager.Do | internal/agentd/jobs.go:179-347 | every operation on a job is its guard, its record and its one event |
| Jobs.JobManager.Update | internal/agentd/jobs.go:420-434 | store the mutated record, then log; a refusal changes nothing |
| Jobs.JobManager.AppendEventLocked | internal/agentd/jobs.go:445-466 | the fields an event left empty come from the job; sequence numbers go up by one |
| Jobs.JobManager.TransferIDExistsLocked | internal/agentd/jobs.go:436-443 | the search finds another job of the transfer if there is one |
| Jobs.JobManager.CreateSendJob | internal/agentd/jobs.go:127-151 | checks in order, then a Queued job and its created event |
| Jobs.JobManager.CreateReceiveJob | internal/agentd/jobs.go:153-177 | checks in order, duplicates included, then an Offered job and its created event |
| Jobs.JobManager.Find | internal/agentd/jobs.go:392-404 | some job of the transfer, none if there is none |
| JobRuns.RunsAreValid | internal/agentd/jobs.go:127-347 | over every run: progress within the file, transfer ids unique, every log legal and up to date |
| JobRuns.FindIsOrderIndependent | internal/agentd/jobs.go:392-404 | the lookup over an unordered map always gives the same job |
| JobRuns.FailedStepChangesNothing | internal/agentd/jobs.go:420-434 | a failed operation changes nothing |
| JobRuns.StepLogsItsOutcome | internal/agentd/jobs.go:445-461 | a successful one appends one event that tells what its job became, and touches no other job |
| JobRuns.OperationsExactly | internal/agentd/jobs.go:179-347 | for each operation: from which statuses and with which arguments it succeeds, every field of the new record, every error |
| JobRuns.EventTellsTheChange | internal/agentd/jobs.go:445-466 | which event each operation and each creation logs, with its message and number |
| JobRuns.LogRefinesStore | internal/agentd/jobs.go:406-466 | over every run the k-th event tells the record the k-th successful step left, the last one the store's |
| JobRuns.TerminalJobsAreFrozen | internal/agentd/jobs.go:468-470 | a terminal job's record and log never change again |
| JobOrder.List | internal/agentd/jobs.go:359-368 | every job once, by increasing sequence number |
| JobOrder.ListIsCreationOrder | internal/agentd/jobs.go:359-368 | that order is the order of creation |
| JobOrder.EventsReturnTheLog | internal/agentd/jobs.go:381-390 | sorting a job's events gives the log as it was written |
| JobOrder.ClaimsAlternateWithRetries | internal/agentd/jobs.go:287-303 | between two successful claims there is a successful MarkRetryable |
| JobDrivers.MarkTransferStarted | internal/agentd/backend_client.go:1443-1477 | the fall-through switch performs the plan for the status it read |
| JobDrivers.CompleteTransferJob | internal/agentd/backend_client.go:1479-1510 | start if need be, re-read, check size, complete |
| JobDrivers.MarkJobRetryableIfMutable | internal/agentd/transfer_runtime.go:437-474 | the switch performs the plan for the status it read |
| JobDrivers.FailJobIfMutable | internal/agentd/transfer_runtime.go:498-507 | fails the job, forgives a terminal one |
| JobDrivers.StartReachesTransferring | internal/agentd/backend_client.go:1443-1477 | run alone, from every status: where it leads, progress kept |
| JobDrivers.RetryReachesRetryable | internal/agentd/transfer_runtime.go:437-474 | run alone, every live job becomes Retryable with its progress, a Queued one Failed |
| JobDrivers.CompleteReachesCompleted | internal/agentd/backend_client.go:1479-1510 | if and only if: when it succeeds; a send job short of its size is never completed |
| DriverRuns.StartsAlone | internal/agentd/backend_client.go:1443-1477 | the driver of reads and single operations, run alone, is markTransferStarted |
| DriverRuns.CompletesAlone | internal/agentd/backend_client.go:1479-1510 | likewise completeTransferJob, its second read included |
| DriverRuns.RetriesAlone | internal/agentd/transfer_runtime.go:437-474 | likewise markJobRetryableIfMutable |
| DriverRuns.InterleavedDriversStayLegal | internal/agentd/jobs.go:406-434 | drivers launched at any time and interleaved read by read, operation by operation, with anything else: the store stays valid and ended jobs never move |
| DriverRuns.SuccessIsArrival | internal/agentd/backend_client.go:1443-1510 | whatever happened in between, the step with which a driver reports success finds or leaves its job in the status the driver is for |
| DriverRuns.CompletionsStand | internal/agentd/backend_client.go:1479-1510 | every completion that reported success stands, whatever runs beside it and after it |
| DriverRuns.ProgressIsLastReport | internal/agentd/jobs.go:254-266 | over any run, a job that has not completed holds the last progress successfully reported on it |
| DriverRuns.CompletesShortExactly | internal/agentd/backend_client.go:1505-1509 | if and only if: when a send job that passed the check is completed short, over any interleaving |
| DriverRuns.ShortCompletionHappens | internal/agentd/backend_client.go:1505-1509 | the short case does happen, from every job that could complete |
| Files.FileStore.CommitDestinationNoReplace | internal/agentd/transfer_runtime.go:250-311 | exclusive create, copy under a digest, re-read, then drop the partial if it is still recognised; a failure removes the destination again, if that succeeds |
| Files.CommitNeverReplaces | internal/agentd/transfer_runtime.go:250-311 | success only where nothing was, with the manifest's size and digest; no other path changes; exactly when the partial is kept, and when a torn destination stays behind |
| LiveReceiver.PreparePartial | internal/agentd/backend_client.go:1129-1138 | resume from the partial, or clear it away, or fail to |
| LiveReceiver.OnProgress | internal/agentd/backend_client.go:1212-1221 | progress is stored and reported exactly while connecting or transferring, suppressed otherwise |
| LiveReceiver.LeaveRetryably | internal/agentd/backend_client.go:1240-1271 | with no stat or truncate error, partial length, stored and reported progress are one number |
| LiveReceiver.FinishTransfer | internal/agentd/backend_client.go:1289-1314 | commit, then complete, then announce; anything wrong announces nothing |
| LiveReceiver.RunLiveReceiverOnce | internal/agentd/backend_client.go:1165-1316 | the whole attempt: without an entry it fails the job and says so; otherwise it lives through its events and ends at the first that stops it, as that event demands; with nothing else moving the job, a retryable leave keeps exactly the accepted bytes, each chunk reported; a finish leaves the destination new and exactly the accepted bytes; completion is announced then only, last |
| LiveReceiver.EntryExactly | internal/agentd/backend_client.go:1165-1239 | if and only if: when an attempt gets as far as its loop, and with which bytes already hashed |
| LiveReceiver.ClosesExactly | internal/agentd/backend_client.go:1272-1314 | if and only if: when a returned manifest ends in a finished transfer; files, job and messages in that case and in every other |
| LiveReceiver.RefusedKeepsPartial | internal/agentd/backend_client.go:1278-1284 | a refused message fails the job; a partial file resumed from is kept, one this attempt created is removed |
| LiveReceiver.LeavesExactly | internal/agentd/backend_client.go:1240-1271 | if and only if: when an attempt leaves retryably; partial file, message and job after it, and after one that does not get away with it |
| LiveReceiver.UndisturbedLeaveKeepsAll | internal/agentd/backend_client.go:1240-1271 | a retryable leave keeps all accepted bytes in the partial, stored progress and message; its reason |
| LiveProgress.EachChunkIsReported | internal/agentd/backend_client.go:1211-1221 | while the job is running, every accepted chunk leaves stored progress equal to the bytes accepted, and its report is sent |
| LiveProgress.NotRunningIsSilent | internal/agentd/backend_client.go:1211-1221 | in every other status the chunk is taken, with nothing stored or said |
| LiveProgress.ProgressKeepsUp | internal/agentd/backend_client.go:1211-1221 | over any messages with nothing else moving the job: one report for each accepted chunk in order, stored progress the last of them |
| LiveProgress.LiveReceiverPlays | internal/agentd/backend_client.go:1272-1287 | the receiver inside the attempt goes through exactly the run of the stand-alone receiver |
| LiveReceiver.SettlingPutsInStep | internal/agentd/backend_client.go:1240-1271 | whatever partial and progress were, settling brings them together and keeps a prefix |
| LiveReceiver.NextAttemptAccepts | internal/agentd/backend_client.go:1115-1138 | from there the next attempt's own checks pass, at exactly that point |
| Signaling.AgentsSayExactlyTheirPart | internal/api/ws.go:187-244 | if and only if: what either agent of a transfer may send over its own socket |
| Signaling.TicketsSpeakForTheSender | internal/api/ws.go:187-209 | if and only if: what a ticket holder may send |
| Signaling.OnlyTheRecipientAnnouncesCompletion | internal/api/ws.go:187-244 | of all sockets only the recipient's own can announce completion, to the sender |
| Signaling.BrowsersSpeakOnTheirLink | internal/api/ws.go:187-244 | if and only if: what a browser may send over its link |
| Signaling.LinkTicketsSpeak | internal/api/ws.go:187-244 | if and only if: what the holder of a link's ticket may send |
| IncomingEnvelopes.HandleStateMessage | internal/agentd/backend_client.go:646-740 | the handler computes `HandleState`, whose effect the lemmas of `MessagesHeard` spell out |
| MessagesHeard.MessageHeardExactly | internal/agentd/backend_client.go:646-740 | by message type, for a job that has not ended: the one field or two it changes, all others and all other jobs kept |
| MessagesHeard.StrangersAreRefused | internal/agentd/backend_client.go:646-740 | wrong peer, unknown transfer, missing transfer id: each error, nothing changed |
| MessagesHeard.CancelledHeard | internal/agentd/backend_client.go:734-736 | the job is Cancelled; an ended one refuses |
| MessagesHeard.FailureHeard | internal/agentd/backend_client.go:719-733 | the job is Failed with the reason of that message; an ended one stays, without error |
| MessagesHeard.AcceptanceHeard | internal/agentd/backend_client.go:653-660 | an Offered job is Accepted, other live ones stay, an ended one refuses |
| MessagesHeard.StartHeard | internal/agentd/backend_client.go:667-674 | from every status: Transferring, unchanged, or refused |
| MessagesHeard.ProgressHeardExactly | internal/agentd/backend_client.go:675-704 | if and only if: when a report is adopted; unreadable ones and those out of range are errors |
| MessagesHeard.RetryHeard | internal/agentd/backend_client.go:705-765 | from every status and progress: what the job becomes, or the error |
| MessagesHeard.CompletionHeard | internal/agentd/backend_client.go:707-718 | from every status, direction and progress: Completed, merely started, or refused |
| MessagesHeard.AlwaysOnHeard | internal/agentd/backend_client.go:455-498 | a refused message that names its sender fails the job of its transfer; any other changes what it changes |
| IncomingEnvelopes.HandleTransferRetryable | internal/agentd/backend_client.go:742-765 | a sender adopts the reported progress, then the job becomes retryable |
| IncomingEnvelopes.FailTransferJob | internal/agentd/backend_client.go:1523-1536 | the job of the transfer fails unless it has ended |
| IncomingEnvelopes.FollowsMovesOnly | internal/agentd/backend_client.go:646-740 | a message moves no job but that of its transfer, along legal steps, binding kept |
| IncomingEnvelopes.OnlyThePeerCompletes | internal/agentd/backend_client.go:707-718 | a message completes a job only if it is a send job with its whole size reported and the completion comes from the expected peer |
| IncomingEnvelopes.CompletionHeardExactly | internal/agentd/backend_client.go:707-718 | if and only if: when an accepted announcement leaves the send job Completed |
| IncomingEnvelopes.HearOnAlwaysOnSocket | internal/agentd/backend_client.go:455-498 | a message refused on the always-on socket also fails the job it names |
| RetryHandshake.SenderAdoptsProgress | internal/agentd/backend_client.go:742-765 | after the receiver's retryable message the sender is Retryable at exactly the reported progress |
| RetryHandshake.LeftPartialIsAPrefix | internal/agentd/backend_client.go:1240-1271 | the partial file a retryable leave keeps is a beginning of the source |
| RetryHandshake.RetriedTransferResumes | internal/agentd/backend_client.go:1085-1138 | after an attempt over any network: receiver leaves, message arrives, and the next stream is accepted throughout and completes the file |
| EndToEnd.MoveKeepsGood | internal/agentd/backend_client.go:1278-1314 | every move of daemons, server and network, a commit's own steps included, keeps the system invariant |
| EndToEnd.HearingIsTheHandlers | internal/agentd/backend_client.go:646-740 | a message heard is its handler run on the store, and the split completion, nothing in between, is the handler too |
| EndToEnd.CompletionIsEndToEnd | internal/agentd/backend_client.go:707-718 | in every run: sender Completed implies receiver Completed and the destination new, the whole source, of the declared size, nothing else touched |
| EndToEnd.CopyingMovesStand | internal/agentd/transfer_runtime.go:262-311 | what the destination holds, and where the commit stands, after each of its moves |
| EndToEnd.CommitMovesAreTheCommit | internal/agentd/transfer_runtime.go:250-311 | the commit's single steps, taken in a row, have the commit's outcome |
| EndToEnd.DestinationExactly | internal/agentd/transfer_runtime.go:262-311 | if and only if: when a new destination holds less than the source; it is always a beginning of it |
| EndToEnd.LeftBehindBlocks | internal/agentd/transfer_runtime.go:258-271 | a destination left behind stays, and neither job ever completes |
| EndToEnd.CompletedFileHasTheSendersDigest | internal/p2p/sender.go:95-105 | the committed file has size and digest of every manifest a finished stream of the transfer returned |
| Completion.ShipmentIsUnforged | internal/p2p/sender.go:143-167 | every frame of a stream whose seals are recorded opens only as recorded |
| Completion.AnnouncementHeardExactly | internal/agentd/backend_client.go:1479-1510 | if and only if: the announcement completes a transferring sender when its stored progress is its size |
| Completion.UndisturbedTransferCompletes | internal/agentd/backend_client.go:1272-1314 | a finished stream that arrives undisturbed, fresh or resumed, completes the receiver and delivers the file; if and only if: when the sender completes too |
| InboxReservations.Itoa | internal/agentd/inbox.go:216-228 | the exact numeral of every non-negative int within the buffer; nothing for a negative one |
| InboxReservations.NameSplitsAtLastDot | internal/agentd/inbox.go:117-130 | base and extension concatenate to the name, and the extension starts at the last dot |
| InboxReservations.CandidatesRead | internal/agentd/inbox.go:117-130 | the first candidate is the name itself, each later one has its number between base and extension |
| InboxReservations.CandidatesDiffer | internal/agentd/inbox.go:117-130 | the numbered names never repeat |
| InboxReservations.SlotIsFirstFree | internal/agentd/inbox.go:117-130 | the first free name exists, within twice the paths plus the reservations plus one tries |
| InboxReservations.Inbox.DestinationReserved | internal/agentd/inbox.go:187-194 | true exactly of a reserved destination |
| InboxReservations.Inbox.UniqueDestination | internal/agentd/inbox.go:117-130 | the unbounded loop ends, at the first free name |
| InboxReservations.Inbox.Reserve | internal/agentd/inbox.go:60-105 | checks, name, exclusive metadata file, entry, with what each failure leaves behind |
| InboxReservations.ReservesExactly | internal/agentd/inbox.go:60-105 | if and only if: when a reservation is granted; entry, metadata file and each error with what it leaves on disk |
| InboxReservations.GrantIsFreeAndInside | internal/agentd/inbox.go:60-105 | whatever name is offered, the destination lies directly inside the inbox and was free |
| InboxReservations.ReservationsAreDistinct | internal/agentd/inbox.go:60-115 | over any run the list is what was granted, in order, destinations pairwise distinct |
| InboxClashes.NamesClashExactly | internal/agentd/inbox.go:84-96 | if and only if: which offered names let a companion file (metadata or partial) take a destination, over all runs and disks |
| InboxClashes.MetadataClashExactly | internal/agentd/inbox.go:84-96 | the same for metadata: one name must be a variant of another with the suffix; never if no name ends in it |
| InboxClashes.FreeNameCollides | internal/agentd/inbox.go:117-130 | in any state, a free name collides once its metadata name is reserved |
| Offers.HandleTransferOffer | internal/agentd/backend_client.go:767-854 | the handler's calls in order; accepted exactly when the store then holds the job, denied with its reason exactly when policy or key envelope says so, silent otherwise; a failing channel is an error, and without one a denial is |
| Offers.OfferIsAnswered | internal/agentd/backend_client.go:767-854 | the same of the step, for every store, inbox, disk and circumstance |
| Offers.AdmittedIsAnswered | internal/agentd/backend_client.go:773-852 | an offer that passes policy and key checks and meets no failure is answered as accepted |
| Offers.OfferAddsAPairOrNothing | internal/agentd/backend_client.go:767-836 | an offer adds one matching job and entry, or neither; denied and repeated ones change nothing at all |
| Offers.JobsMatchReservations | internal/agentd/backend_client.go:767-836 | with an offer as one step: over every run receive jobs and inbox entries correspond one to one, equal in sender, name, size and destination |
| Offers.PolicyHoldsOfEveryJob | internal/agentd/backend_client.go:236-256 | over every run, every receive job is from a sender the policy allows and within its size |
| Offers.DestinationsOfJobsDiffer | internal/agentd/backend_client.go:810-818 | no two receive jobs share a destination |
| Offers.RepeatedOffersChangeNothing | internal/agentd/backend_client.go:773-775 | with an offer as one step: one repeated at any later time changes nothing and the answer is Accept over a working channel, an error over a failing one, nothing without one |
| OfferGaps.OfferedAloneIsTheOffer | internal/agentd/backend_client.go:767-836 | the parts of an offer, with nothing in between, are the one step of `Offers` |
| OfferGaps.EntryHasJobExactly | internal/agentd/backend_client.go:773-825 | if and only if: over every run of the parts with any work in between, which inbox entries have their receive job |
| OfferGaps.JobsHavePlaces | internal/agentd/backend_client.go:767-836 | over every such run each receive job has its entry, keeps the policy and shares its destination with no other |
| OfferGaps.OrphanHappens | internal/agentd/backend_client.go:773-825 | the run that leaves an entry without a job: the transfer is bound to a send job between search and creation |
| Rooms.PresenceRegistry.Register | internal/signaling/presence.go:35-44 | the device, and no other, becomes present |
| Rooms.PresenceRegistry.Disconnect | internal/signaling/presence.go:62-70 | the device goes, and its agent with the last of them |
| Rooms.RoomManager.AttachTransferPeer | internal/signaling/rooms.go:38-61 | the socket takes its slot, on its transfer or always on |
| Rooms.RoomManager.ConnectPeer | internal/api/ws.go:146-151 | register, then attach |
| Rooms.RoomManager.DetachPeer | internal/signaling/rooms.go:93-137 | sockets, active transfers and presence after a detach, with one callback for each transfer dropped |
| Rooms.RoomManager.UnplugPeer | internal/signaling/rooms.go:104-127 | what a detach does under the lock, and whether the presence is to be dropped after it |
| Rooms.RoomManager.DetachTransferPeer | internal/signaling/rooms.go:139-158 | the deletion loop over the transfers removes exactly the matching sockets and no empty map stays |
| Rooms.RoomManager.RouteEnvelope | internal/signaling/rooms.go:63-91 | run alone, in slots: a socket of the transfer and target if there is one, else an always-on one of the target, offline if and only if there is neither; each error; then the transfer is tracked |
| RoomRuns.RoomsAreSlots | internal/signaling/rooms.go:38-158 | the nested maps behave as independent slots, each holding its last socket not detached since |
| RoomRuns.StaleDetachIsHarmless | internal/signaling/rooms.go:97-137 | detaching a replaced socket never removes the newer one |
| RoomRuns.RoomsAgreeWithPresence | internal/signaling/rooms.go:101-137 | over every run no empty map stays and a device is present exactly when a socket of it is attached |
| RoomRuns.PresentMeansConnected | internal/signaling/presence.go:35-80 | presence in terms of the slots |
| RoomRuns.DeparturesExactly | internal/signaling/rooms.go:118-137 | if and only if: a transfer leaves the active set, and is called back, when one of its agents loses its last socket |
| RoomRuns.OnlyDetachesDepart | internal/signaling/rooms.go:201-216 | nothing else takes a transfer or agent out of it |
| RoomSteps.RoutedAloneIsRoute | internal/signaling/rooms.go:63-91 | the two lookups and the tracking, with nothing in between, are the one routing step |
| RoomSteps.RunStaysProper | internal/signaling/rooms.go:38-216 | over every run of single steps no empty map stays and active transfers name their agents |
| PresenceGaps.PresenceAgreesExactly | internal/signaling/rooms.go:101-131 | if and only if: over every run of single steps, when they agree once nothing is under way |
| LookupGaps.StepwiseRoomsAreSlots | internal/signaling/rooms.go:38-158 | over every run of single steps the nested maps are independent slots, each with the last socket attached and not unplugged since |
| LookupGaps.RoutedHonestly | internal/signaling/rooms.go:75-85 | over every run of single steps, a message is routed only to a socket attached to its transfer and target when looked up there, or, none being there, to one always on to its target when looked up again |
| LookupGaps.RoutedAloneFinds | internal/signaling/rooms.go:63-91 | the method run alone finds what the two lookups, with nothing in between, find |
| LookupGaps.TrackedMeansRouted | internal/signaling/rooms.go:75-90 | over every run of single steps, only a message whose target was so found has its transfer tracked |
| LookupGaps.RefusedExactly | internal/signaling/rooms.go:75-86 | if and only if: over every run of single steps, when a message is refused as offline |
| LookupGaps.OfflineThoughOnline | internal/signaling/rooms.go:75-85 | the run in which a target that always has a socket is refused as offline |
| ActiveGaps.TrackingKeepsActiveExactly | internal/signaling/rooms.go:87-90 | if and only if: when a tracking step keeps active agents online, whatever the lookup had found |
| ActiveGaps.TrackedOfflineExactly | internal/signaling/rooms.go:87-137 | if and only if: over every run of single steps, when an active transfer names an offline agent; none of that agent's detaches then takes the transfer away |
| ActiveGaps.ActiveStayOnlineExactly | internal/signaling/rooms.go:63-137 | if and only if: over every run of single steps, when all agents of active transfers are online at every time |
| ActiveGaps.TrackingCanComeLate | internal/signaling/rooms.go:172-216 | from every such state: the target found loses its last socket, its transfer is tracked all the same, no callback is due |
| ActiveGaps.LateTrackingHappens | internal/signaling/rooms.go:63-91 | a run from nothing that gets there, for every message between two agents |
| RpcFraming.ReadRPCMessage | internal/app/cli.go:308-352 | one message, framed or a line, or the error, and what is left of the stream |
| RpcFraming.WriteRPC | internal/app/cli.go:461-472 | a length header and the body, or the body and a newline |
| RpcFraming.AnyHeadersRead | internal/app/cli.go:308-352 | headers in any number and order, names in any case, blanks around them: the last valid length decides, and exactly that many octets are read |
| RpcFraming.HeaderExactly | internal/app/cli.go:322-345 | if and only if: which header line gives a length, is passed over, or is an error |
| RpcFraming.CaseDoesNotMatter | internal/app/cli.go:322-345 | a header name is matched whatever its case |
| RpcFraming.AtoiExactly | internal/app/cli.go:336-339 | every numeral is read as its number, signed or not; nothing else but digits after at most one sign is |
| RpcFraming.ReadsBackExactly | internal/app/cli.go:308-352 | one written message is read back, leaving what follows, if it is sendable; something else is read if not |
| RpcFraming.StreamsReadBackExactly | internal/app/cli.go:282-352 | if and only if: a mixed stream is read back message by message and then ends |

## Left out

- LocalWebRTCTransferRunner.Run: its goroutines and the order in which it marks its two jobs; the attempts it runs are those of `ResumeChain`.
- Backpressure.BufferStaysBounded: the encoded size of a frame is any function of the frame; a channel starts empty.
- Progress callbacks of the sender, and `Ack` of the receiver: they report positions that are modelled.
- ReceiverProtocol.Receiver.constructor: a missing destination or receiver object.
- LiveReceiver.RunLiveReceiverOnce: starts when the data channel is open and the job is marked started; the retryable leave before that touches no file. Other goroutines move the job between its events, not inside one.
- LiveReceiver.PreparePartial: symbolic links, file identity and file modes.
- ResumeChain.LegExtendsPrefix: an attempt always keeps its partial file; the program deletes one that the attempt created when it fails for good, and then fails both jobs, so that no attempt follows.
- EndToEnd.CompletionIsEndToEnd: the declared size is taken to be the source's length; it comes from the offer's payload, which nothing binds to the file. The partial path is taken to be free at first (a stale file there is removed by the program). Steps are a superset of what the daemons do.
- IncomingEnvelopes.HandleStateMessage: starting and closing the live session that some messages bring with them.
- Live sessions, ICE candidates and their ownership: queues and guards around a library object.
- Jobs.JobManager.Do: timestamps, and the copies that callers get; event numbers do not overflow.
- InboxReservations.Inbox.Reserve: the check of the inbox root is one outcome; the metadata text is opaque; reservation times.
- Offers.HandleTransferOffer: a daemon without an inbox; opening the key envelope is an outcome. One call with no other work on the store between its parts; `OfferGaps` takes them apart, but not its answer, which a job cancelled in between changes to an error.
- Offers.JobsMatchReservations: an offer is one step; `OfferGaps.EntryHasJobExactly` and `OfferGaps.JobsHavePlaces` say what holds without that.
- Offers.RepeatedOffersChangeNothing: an offer is one step; it does not speak of an entry left without a job.
- RoomRuns.RoomsAgreeWithPresence: connecting and detaching are each one step; `PresenceGaps` takes them apart.
- Rooms.RoomManager.RouteEnvelope: one call with no other between its lookups and its tracking.
- Rooms.RoomManager.DetachPeer: one call with no other between its parts; its callbacks are made after the lock is released.
- Presence: capabilities, last-seen times, `Touch` and the unused `RemoveStale`.
- RpcFraming.ReadRPCMessage: white space outside ASCII in header lines; read errors other than the end of the input.
- Sessions, tickets, tokens, audit, SQL, configuration, the web recipient and its browser-link transfers: plumbing, or easier forms of what is here.
