# LabTether agent: verified model

A Dafny model of the stateful core of the LabTether agent (`internal/agentcore` and the
command tokenizer in `internal/securityruntime`), with proofs about every run, every
interleaving or every input. `dafny verify dfyconfig.toml` checks the whole project.

Objects that the agent updates in place are classes whose methods are proved against
functions on values. Concurrent code is a machine with one step per lock section, channel
operation or send, in arbitrary order; an event that a state does not allow changes nothing.
Network, Docker, file-system, clock and random results are parameters of the steps.

| file | what it models |
|---|---|
| `Text.dfy` | trimming, splitting, joining and ordering strings |
| `RingBuffer.dfy` | telemetry ring buffer with a flush that sends without the lock |
| `Transport.dfy`, `Identity.dfy` | hub socket and runtime identity |
| `ExecSessions.dfy`, `ExecProtocol.dfy`, `ExecOutcomes.dfy` | Docker exec manager, its asynchronous starts, and what becomes of them |
| `LogStreams.dfy`, `Ownership.dfy` | log stream owners, and all owners across reconnects |
| `Credentials.dfy` | sockets and identity rotations in one machine |
| `LogDecode.dfy`, `LogLines.dfy` | Docker log demultiplexer and what its output means |
| `Inventory.dfy`, `Replication.dfy`, `Standing.dfy` | inventory comparison and diff, published record and replica, deltas and resets |
| `StatsScheduler.dfy` | running index, rotating selection, adaptive intervals |
| `SelfUpdate.dfy`, `Version.dfy` | self-update with rollback, release versions |
| `CommandLine.dfy`, `CommandWords.dfy`, `AuthorizedKeys.dfy` | tokenizer and quoting, authorized_keys edits |
| `Reconnect.dfy`, `UploadQueue.dfy` | reconnect loop, ordered upload queue |

Where code and comments differ, the model follows the code:

- `ws_reconnect.go` speaks of three consecutive authentication failures. Other failures in
  between do not reset the counter, so `Reconnect.FailuresCounted` counts those since the last
  connect or new token.
- Label comparison reads a missing key as the empty string, so it can miss a change.
  `DockerReplication.ReplicaFollowsRecord` says exactly when the published record and a
  receiver's copy then differ.
- `ResetPublishedState` promises that the next discovery cycle republishes in full. A delta
  refresh that has already read the flag still sends its delta after the reset, and a full
  refresh that has sent its snapshot overwrites the reset when it records it, so that the next
  refresh sends a delta. `DockerStanding.NoDeltaBeforeFull` says exactly when the promise holds.
- Forgetting failed uploads begins with the 129th give-up; up to 128 the order of chunks is
  guaranteed (`UploadQueue.HandledInOrderWithin`, `UploadQueue.OneMoreFailure`).
- The minimum stats interval exceeds the maximum for discovery intervals above 20 minutes,
  and the starting interval exceeds it above 10 minutes.

## Model

| member | source | states |
|---|---|---|
| `RingBuffers.RingBuffer.constructor` | internal/agentcore/ring_buffer.go:23-28 | An empty buffer of the given capacity, 60 when the capacity is not positive |
| `RingBuffers.RingBuffer.Push` | internal/agentcore/ring_buffer.go:30-41 | The circular array represents the old sequence with the item appended, without its oldest entry (and with a raised head version) when it was full |
| `RingBuffers.RingBuffer.Drain` | internal/agentcore/ring_buffer.go:80-97 | Returns the whole sequence oldest first and leaves the empty one; every slot is zeroed; the version rises unless the buffer was empty |
| `RingBuffers.RingBuffer.RemoveSent` | internal/agentcore/ring_buffer.go:64-74 | Removes the head exactly when the buffer is not empty and the version is the one remembered |
| `RingBuffers.RingBuffer.Flush` | internal/agentcore/ring_buffer.go:48-77 | Under any operations scheduled between its lock sections, the buffer and the deliveries are those of the flush on plain sequences |
| `RingBuffers.SlotIsModulus` | internal/agentcore/ring_buffer.go:33-38 | The wrap-around index of the circular array, for every head and offset within one lap |
| `RingBuffers.StepHoldsNewest` | internal/agentcore/ring_buffer.go:30-97 | Every step keeps the buffer equal to the newest pushes in order, and the version rises exactly when the head moves |
| `RingBuffers.StepVersionGuards` | internal/agentcore/ring_buffer.go:59-74 | No ABA: every step keeps that an unchanged version means the head is the very entry in flight |
| `RingBuffers.StepSentInOrder` | internal/agentcore/ring_buffer.go:53-75 | Every step keeps the push indices of delivered entries strictly increasing |
| `RingBuffers.StepConserved` | internal/agentcore/ring_buffer.go:30-97 | Every step keeps pushed = retained + removed by flush + overwritten + drained, as multisets |
| `RingBuffers.RunKeepsInv` | internal/agentcore/ring_buffer.go:30-97 | Every interleaving keeps the whole invariant |
| `RingBuffers.EveryRunIsSafe` | internal/agentcore/ring_buffer.go:30-97 | Over every run from an empty buffer of any capacity: at most cap entries, the newest pushes in order; sent entries are pushed entries in strictly increasing push order; flush removes only what it sent or discarded; every push is in exactly one place |
| `RingBuffers.StepErases` | internal/agentcore/ring_buffer.go:30-97 | The machine with its history changes the buffer value exactly as the class does |
| `RingBuffers.FlushIsARun` | internal/agentcore/telemetry_delivery.go:41-59 | Any flush of the class, with any interference, is a run of the machine with the same buffer and deliveries, so the results over runs hold of it |
| `RingBuffers.FlushSendsAll` | internal/agentcore/ring_buffer.go:48-77 | Left alone with every send succeeding, a flush sends the whole buffer in order and empties it |
| `RingBuffers.FlushStopsAtFailure` | internal/agentcore/ring_buffer.go:61-63 | Left alone with the n-th send failing, the entries before it are sent and it and the rest stay queued |
| `HubSocket.WsTransport.InstallSocket` | internal/agentcore/ws_transport.go:342-358 | Closes the previous ping channel, opens a new one, and binds socket, context and enrollment state together |
| `HubSocket.WsTransport.MarkDisconnectedIfCurrent` | internal/agentcore/ws_transport.go:523-547 | Tears everything down for no or the current socket; a stale socket changes nothing |
| `HubSocket.WsTransport.Close` | internal/agentcore/ws_transport.go:438-455 | Tears down unconditionally |
| `HubSocket.WsTransport.SendOnConnection` | internal/agentcore/ws_transport.go:413-436 | Which socket is written to, if any: the bound one only, and only a proof while enrollment is pending |
| `HubSocket.InstallConsistent` | internal/agentcore/ws_transport.go:342-358 | Installing keeps: connected exactly with a socket and an open ping channel, and no channel closed twice |
| `HubSocket.MarkConsistent` | internal/agentcore/ws_transport.go:523-547 | So does tearing down |
| `HubSocket.DisconnectsExactly` | internal/agentcore/ws_transport.go:523-547 | A disconnect for no or the current socket leaves no socket, no ping channel and an ended context; for another socket it changes nothing |
| `HubSocket.InstallsExactly` | internal/agentcore/ws_transport.go:342-358 | The new socket is connected with a fresh ping channel, and the old channel is closed |
| `HubSocket.WritesExactly` | internal/agentcore/ws_transport.go:413-436 | A bound send writes to its socket exactly when that is the open one and enrollment is not pending or the message is the proof; an unbound one writes to the open socket under the same condition |
| `SessionOwnership.RunKeepsInv` | internal/agentcore/ws_session_transport.go:42-56 | Every interleaving of connect sections, dispatchers, asynchronous owners, disconnects and traffic keeps the ownership invariant |
| `SessionOwnership.OwnersBelongToTheLatestSocket` | internal/agentcore/ws_transport.go:328-358 | In every run each exec reservation, exec session and log stream was created on the most recently installed socket |
| `SessionOwnership.SocketDiscipline` | internal/agentcore/ws_transport.go:413-455 | In every run: connected iff socket and open ping channel; no ping channel closed twice; a sender bound to a socket writes to no other; a socket opened without a token writes only enrollment.proof and delivers only the three enrollment types |
| `SessionOwnership.SendsExactly` | internal/agentcore/ws_session_transport.go:25-27 | In every run a sender bound to the open socket writes exactly when it was opened with a token or the message is the proof |
| `SessionOwnership.DeliversExactly` | internal/agentcore/command_authorization.go:12-22 | In every run a message of the open socket is delivered exactly when that socket was opened with a token or the message is one of the three |
| `SessionOwnership.EntersExactly` | internal/agentcore/ws_session_transport.go:42-56 | A message is dispatched exactly while no connect section runs and its socket is the open one |
| `SessionOwnership.LogsDispatchRegisters` | internal/agentcore/docker/logs.go:53-81 | A dispatched log start registers its owner on the dispatcher's socket, and a stop removes that ID |
| `SessionOwnership.ExecDispatchRegisters` | internal/agentcore/docker/exec_start.go:46-67 | A dispatched exec start reserves for the dispatcher's socket |
| `SessionOwnership.ConnectTakesOver` | internal/agentcore/ws_transport.go:328-358 | The connect section, with nothing in its way, leaves the new socket open and latest, no owner registered, and the old socket's context ended |
| `SessionOwnership.HubStepIsExecStep` | internal/agentcore/run.go:255-267 | Whatever the hub side does, the exec manager takes one step of its own protocol or none |
| `SessionOwnership.ExecProtocolHolds` | internal/agentcore/docker/exec_start.go:30-168 | So the exec protocol guarantees hold in every run of the whole |
| `RuntimeIdentity.NormalizeToken` | internal/agentcore/runtime_identity.go:11-31 | Accepts exactly the inputs whose trimmed text is 1 to 4096 bearer-token characters, and returns that trimmed text |
| `RuntimeIdentity.RuntimeIdentitySource.Adopt` | internal/agentcore/runtime_identity.go:82-122 | Accepted exactly with a valid token and asset; then the identity has the trimmed token and asset issued, and group and origins where issued; refused, nothing changes |
| `RuntimeIdentity.RuntimeIdentitySource.AdoptCanonicalAsset` | internal/agentcore/runtime_identity.go:124-149 | The asset is adopted only if no rotation happened since the snapshot; otherwise the current identity stays |
| `RuntimeIdentity.RuntimeIdentitySource.SetToken` | internal/agentcore/runtime_identity.go:151-170 | An invalid token changes nothing, an equal one neither; a new one raises the generation |
| `RuntimeIdentity.RuntimeIdentitySource.MatchesConnection` | internal/agentcore/runtime_identity.go:172-175 | For a snapshot taken earlier in the history, true exactly when the identity has not changed since |
| `RuntimeIdentity.ApplyIsPast` | internal/agentcore/runtime_identity.go:82-175 | Every change raises the generation by one, and earlier values stay told apart |
| `RuntimeIdentity.GenerationsIdentify` | internal/agentcore/runtime_identity.go:82-175 | Over every history of updates, generations never fall and equal generations mean equal snapshots |
| `RuntimeIdentity.CredentialFields` | internal/agentcore/runtime_identity.go:100-121 | Issued parts replace, parts not issued stay, and a new socket origin without an API origin brings its own |
| `RuntimeIdentity.UpdateFields` | internal/agentcore/runtime_identity.go:124-170 | A token update changes the token alone and a repeated one nothing; an asset update the asset alone, only for the identity it was meant for |
| `RuntimeIdentity.LatestIsInForce` | internal/agentcore/runtime_identity.go:82-170 | Over every history the token in force is that of the last credential or token update and the socket origin that of the last credential that brought one, else the initial ones |
| `RuntimeIdentity.InstalledSocketsAreCurrent` | internal/agentcore/ws_transport.go:244-341 | In every interleaving of connect attempts and rotations, an installed socket is bound to the identity in force at its final check: the snapshot its handshake used, or that snapshot with the canonical asset ID that same handshake returned |
| `RuntimeIdentity.NoRotationBeforeInstall` | internal/agentcore/ws_transport.go:244-341 | Between an installed socket's snapshot and its final check the identity did not change at all, or only by that attempt's own adoption |
| `RuntimeIdentity.RotationStopsAttempt` | internal/agentcore/ws_transport.go:317-341 | In every run, once any event but its own adoption changes the identity, an attempt not yet past its final check never passes it |
| `RuntimeIdentity.UndisturbedAttemptInstalls` | internal/agentcore/ws_transport.go:244-358 | An attempt that nothing disturbs installs its socket, with the canonical asset adopted if it had a token and got one |
| `SocketCredentials.StepKeepsInv` | internal/agentcore/ws_transport.go:328-358 | Every step of the joint machine (connect section, attempts, rotations, dispatch, traffic) keeps each socket tied to its attempt |
| `SocketCredentials.OrdinaryTrafficHadACredential` | internal/agentcore/ws_transport.go:244-358 | In every joint run, a socket that wrote anything but enrollment.proof or delivered an ordinary message was opened with a non-empty token that was still in force at its final check |
| `SocketCredentials.UndisturbedConnectInstalls` | internal/agentcore/ws_transport.go:328-358 | A current attempt with nothing in its way opens its socket, pending enrollment exactly without a token |
| `DockerExec.DockerExecManager.PrepareExecStart` | internal/agentcore/docker/exec_start.go:46-67 | Reserves exactly when the ID is free and fewer than ten are pending or active |
| `DockerExec.DockerExecManager.PublishSession` | internal/agentcore/docker/exec_start.go:135-144 | A session is made exactly when its own reservation stands and its context has not ended |
| `DockerExec.DockerExecManager.HandleExecClose` | internal/agentcore/docker/exec.go:291-311 | Withdraws and cancels a pending start; only cancels an active session |
| `DockerExec.DockerExecManager.CleanupSession` | internal/agentcore/docker/exec.go:378-390 | Removes only its own session and reports whether it did |
| `DockerExec.DockerExecManager.CloseEverything` | internal/agentcore/docker/exec.go:392-405 | Both maps end empty and every owner in them is cancelled |
| `ExecProtocol.TaskMoveIsLocal` | internal/agentcore/docker/exec_start.go:70-168 | Every act of a reservation either publishes that reservation while it stands, or only removes entries |
| `ExecProtocol.StepEntriesOk` | internal/agentcore/docker/exec_start.go:30-159 | Every step keeps pending and active IDs disjoint, at most ten together, each held by a task in the matching phase |
| `ExecProtocol.StepFatesOk` | internal/agentcore/docker/exec_start.go:110-144 | Every step keeps withdrawn and expired reservations apart from published ones |
| `ExecProtocol.StepMessagesOk` | internal/agentcore/docker/exec_start.go:146-168 | Every step keeps the order of each reservation's messages |
| `ExecProtocol.StepKeepsInv` | internal/agentcore/docker/exec_start.go:30-168 | Every event of every interleaving keeps the three |
| `ExecProtocol.EveryRunIsSafe` | internal/agentcore/docker/exec_start.go:30-168 | In every run: IDs disjoint and at most ten; a closed, shut down or expired reservation never becomes a session; nothing follows a reservation's closed message; a session's started message comes once and first |
| `ExecOutcomes.ClosedOwnerHasEnded` | internal/agentcore/docker/exec.go:291-311 | In every run, after a close request for an ID and whatever follows, the context of its session or reservation has ended and the reservation is gone |
| `ExecOutcomes.CloseSparesOthers` | internal/agentcore/docker/exec.go:291-311 | A close request ends no owner of another ID and leaves its entry in place |
| `ExecOutcomes.ShutdownEndsAll` | internal/agentcore/docker/exec.go:392-405 | Closing everything ends the context of every owner, for good, and empties both maps |
| `ExecOutcomes.TimeoutEndsStart` | internal/agentcore/docker/exec_start.go:88-114 | A setup timer that fires, or wins the race with the hijacked connection, ends the start's context for good |
| `ExecOutcomes.NothingEndsSilently` | internal/agentcore/docker/exec_start.go:96-168 | In every run a session stays registered until its cleanup and is announced closed when over, unless everything was closed; a start that ends without a session was announced unless its context was ended from outside |
| `ExecOutcomes.NoContextLeaks` | internal/agentcore/docker/exec_start.go:70-159 | In every run no start and no session is over with its context still open |
| `ExecOutcomes.SaysItsMessage` | internal/agentcore/docker/exec.go:313-330 | Each sending act sends exactly its started, data or closed message |
| `ExecOutcomes.UndisturbedStartRuns` | internal/agentcore/docker/exec_start.go:30-159 | A start with its ID and one of ten places free, left alone on a live socket, becomes a session that says it started |
| `ExecOutcomes.FailedSetupIsAnnounced` | internal/agentcore/docker/exec_start.go:96-108 | A setup that fails while its reservation stands is announced closed and gives its place back |
| `ExecOutcomes.EndedSessionIsAnnounced` | internal/agentcore/docker/exec_start.go:153-158 | A session whose output ends is taken out, cancelled and announced closed |
| `DockerLogStreams.DockerLogManager.PrepareLogsStart` | internal/agentcore/docker/logs.go:53-81 | Registers an owner exactly when fewer than five run, the ID is free and the socket context lives |
| `DockerLogStreams.StoppedStaysStopped` | internal/agentcore/docker/logs.go:87-107 | In every run at most five streams are registered, and an owner once stopped, closed or ended is never current again, so the test before each line refuses its goroutine for good |
| `DockerLogStreams.StartRegisters` | internal/agentcore/docker/logs.go:53-81 | A start is registered exactly with its ID and one of five places free on a live socket |
| `DockerLogStreams.EndRemovesItsOwn` | internal/agentcore/docker/logs.go:87-93 | A stream's own end takes out its registration and no other owner's |
| `DockerLogStreams.DockerLogManager.StreamEnded` | internal/agentcore/docker/logs.go:87-93 | The goroutine removes its own registration and no replacement |
| `DockerLogStreams.DockerLogManager.HandleLogsStop` | internal/agentcore/docker/logs.go:137-154 | Removes the stream of that ID and no other |
| `DockerLogStreams.DockerLogManager.CloseAll` | internal/agentcore/docker/logs.go:156-163 | No stream remains |
| `DockerLogs.FeedSegment` | internal/agentcore/docker/log_decode.go:68-98 | One turn of the emit loop (up to the next newline) is feeding those bytes one by one |
| `DockerLogs.ChunksDoNotMatter` | internal/agentcore/docker/log_decode.go:130-142 | Reading a payload in 16 KiB chunks gives what feeding it whole gives |
| `DockerLogs.BigEndianInjective` | internal/agentcore/docker/log_decode.go:116-116 | Frame sizes and their four bytes determine each other |
| `DockerLogs.Decoder.Emit` | internal/agentcore/docker/log_decode.go:68-98 | The buffers, sequence numbers and lines sent are those of byte-by-byte feeding, and it stops exactly where that stops |
| `DockerLogs.Decoder.Run` | internal/agentcore/docker/log_decode.go:99-160 | Verdict and lines sent are those of the decoding function, for every input and every sink |
| `DockerLogs.Decoder.ReadHeader` | internal/agentcore/docker/log_decode.go:105-129 | Accepts exactly a whole header with stream number at most 2 and three zero bytes, and gives its stream and size |
| `DockerLogs.Decoder.ReadFrame` | internal/agentcore/docker/log_decode.go:101-143 | A frame is refused with the lines sent so far, or leaves exactly the bytes after it |
| `DockerLogs.Decoder.ReadPayload` | internal/agentcore/docker/log_decode.go:130-142 | A truncated payload or a refused line stops the frame |
| `DockerLogs.Decoder.Finish` | internal/agentcore/docker/log_decode.go:144-158 | Unfinished lines are sent in the order they began |
| `DockerLogLines.TrackFeed` | internal/agentcore/docker/log_decode.go:68-98 | The two buffers and the sent lines describe the bytes so far exactly, as long as no line is too long and the sink takes every line |
| `DockerLogLines.DecodingFrames` | internal/agentcore/docker/log_decode.go:99-158 | For every list of valid frames and every sink: success exactly when no line is over 64 KiB and every line is taken; then the lines sent are the completed ones in newline order and the unfinished ones in the order they began |
| `DockerLogLines.DecodeSucceedsExactly` | internal/agentcore/docker/log_decode.go:101-143 | For every input: success if and only if it is whole valid frames (stream number at most 2) with no over-long line and every line taken |
| `DockerLogLines.CutDecodesOnlyBetweenFrames` | internal/agentcore/docker/log_decode.go:105-137 | A stream cut inside a header or payload always fails |
| `DockerLogLines.TrimCRExactly` | internal/agentcore/docker/log_decode.go:91-91 | One final CR is dropped and nothing else |
| `DockerLogLines.LinesPerStream` | internal/agentcore/docker/log_decode.go:66-158 | Per stream, the lines are the newline split of its joined payloads without an empty last piece: each its piece, without the final CR exactly when the piece has one |
| `DockerLogLines.BuilderTakes` | internal/agentcore/docker/log_action.go:24-33 | The bounded builder takes all lines exactly when their text fits 2 MiB |
| `DockerLogLines.OutputSplits` | internal/agentcore/docker/log_action.go:24-33 | The text collected is every line in order, each ended by a newline |
| `DockerLogLines.CollectContainerLogs` | internal/agentcore/docker/log_action.go:13-36 | Text is returned if and only if the stream is complete, has no over-long line and fits 2 MiB, and it is then the whole text |
| `DockerInventory.LabelsEqualExactly` | internal/agentcore/docker/collector_inventory.go:330-340 | The label comparison misses a change exactly when a label with an empty value is lost while the count stays and all others agree |
| `DockerInventory.ContainerEqualExactly` | internal/agentcore/docker/collector_inventory.go:196-218 | The container comparison misses exactly those changes |
| `DockerInventory.EmptyLabelCounterexample` | internal/agentcore/docker/collector_inventory.go:330-340 | x="" replaced by y="v" compares equal one way and different the other |
| `DockerInventory.ComposeEqualExactly` | internal/agentcore/docker/collector_inventory.go:295-316 | On lists sorted by distinct names (what inferComposeStacks gives) the comparison is equality |
| `DockerInventory.InventoryEqualExactly` | internal/agentcore/docker/collector_inventory.go:164-194 | Snapshots compare equal exactly when rest, stacks and container IDs are equal and every container is equal or changed silently |
| `DockerInventory.DeltaReachesNext` | internal/agentcore/docker/collector_inventory.go:232-254 | Applying a diff to the previous containers gives the next ones if and only if no container changed silently |
| `DockerInventory.Diff` | internal/agentcore/docker/collector_inventory.go:232-254 | The two loops compute exactly the upserts and removals |
| `DockerReplication.DockerCollector.ResetPublishedState` | internal/agentcore/docker/collector.go:158-163 | Clears flag and host, and keeps the record |
| `DockerReplication.DockerCollector.RefreshAndPublishFull` | internal/agentcore/docker/collector.go:285-318 | What is tried and what is recorded on every path: not connected, scan failed, unchanged, sent, send failed |
| `DockerReplication.DockerCollector.RefreshAndPublishContainerDelta` | internal/agentcore/docker/collector.go:320-383 | The same for a delta refresh, with its two ways into a full one |
| `DockerReplication.ShouldFallbackToFull` | internal/agentcore/docker/collector.go:385-400 | The three thresholds |
| `DockerReplication.RefreshShape` | internal/agentcore/docker/collector.go:285-383 | The guards alone decide whether a refresh tries a full snapshot, a delta or nothing, and what it then records |
| `DockerReplication.PublishesWhenDue` | internal/agentcore/docker/collector.go:295-306 | A refresh that can scan tries a full snapshot under the current asset ID whenever it is forced, nothing stands published or the asset ID changed |
| `DockerReplication.QuietWhenNothingNew` | internal/agentcore/docker/collector.go:301-304 | An unforced refresh that finds the recorded inventory sends nothing |
| `DockerReplication.FullStepFresh` | internal/agentcore/docker/collector.go:285-318 | After a connected, scanned, deliverable full refresh, forced or not, the record shows what the scan found but for silent changes; the running set follows the scan even when the send fails |
| `DockerReplication.DeltaStepFresh` | internal/agentcore/docker/collector.go:336-383 | After a delta refresh that compares and can send, the record shows what the listing found but for silent changes |
| `DockerReplication.RecordIsFresh` | internal/agentcore/docker/collector.go:285-383 | In every run the record is as fresh as the last refresh that could see and send |
| `DockerReplication.DeltaSent` | internal/agentcore/docker/collector.go:360-383 | A delivered delta brings a receiver that agreed to the new record exactly when nothing changed silently |
| `DockerReplication.StepAgrees` | internal/agentcore/docker/collector.go:285-383 | From agreement, a step keeps replica and record equal if and only if it does not lose a silent change |
| `DockerReplication.ReplicaFollowsRecord` | internal/agentcore/docker/collector.go:285-383 | For every run of refreshes and resets with any failures: the folded messages equal the record after every prefix if and only if no delta missed a lost empty label |
| `DockerReplication.FullRestores` | internal/agentcore/docker/collector.go:306-317 | A delivered full snapshot restores agreement, whatever came before |
| `DockerReplication.DeltaDifference` | internal/agentcore/docker/collector.go:360-383 | After a delivered delta the receiver is wrong about exactly the containers that changed silently |
| `DockerReplication.OnlyLabelsDiffer` | internal/agentcore/docker/collector.go:285-383 | In every run, lost changes included, the receiver has everything right but labels, and of these the number and every one it shows with a value |
| `DockerReplication.FilledLabelsAgree` | internal/agentcore/docker/collector.go:285-383 | With no empty label value, replica and record agree after every prefix of every run |
| `DockerReplication.LostLabelRun` | internal/agentcore/docker/collector.go:350-383 | A two-step run in which they come apart |
| `DockerReplication.RaceChangesNoInventory` | internal/agentcore/docker/collector.go:158-163 | A reset at any point of a refresh changes neither the recorded inventory nor the receiver's copy |
| `DockerStanding.StepTracked` | internal/agentcore/docker/collector.go:285-383 | Flag and host say which snapshot stands since the last reset, unless recording a delivered snapshot overwrote that reset |
| `DockerStanding.StepDeltas` | internal/agentcore/docker/collector.go:320-383 | A step keeps every delta on top of a snapshot if and only if it sends no delta with a reset before the send or while a reset is overwritten |
| `DockerStanding.NoDeltaBeforeFull` | internal/agentcore/docker/collector.go:285-383 | For every run with resets at any point: no delta is tried after a reset before a full snapshot was delivered for the same host (unless that host was empty), if and only if no delta goes out with a reset between its reads and its send, or while a delivered snapshot's recording has overwritten a reset not followed by another reset or snapshot |
| `DockerStanding.FlagIsTrueExactly` | internal/agentcore/docker/collector.go:311-316 | After every run the published flag is true to what was delivered if and only if no reset is overwritten |
| `DockerStanding.AloneStands` | internal/agentcore/docker/collector.go:158-163 | So both hold of every run in which resets fall between refreshes |
| `DockerStanding.DeltaAfterReset` | internal/agentcore/docker/collector.go:325-375 | A run from the start with a delta after a reset: its refresh had read the flag before |
| `DockerStanding.DeltaAfterLostReset` | internal/agentcore/docker/collector.go:307-316 | A run from the start in which recording a snapshot overwrites a reset and the next, undisturbed refresh sends a delta |
| `DockerStats.RunningContainers.SetRunning` | internal/agentcore/docker/collector_running.go:17-38 | The index is the sorted list of exactly the running set, rebuilt only when the set changed |
| `DockerStats.HashIdentifies` | internal/agentcore/docker/collector_running.go:34-37 | For IDs that are not empty and have no comma, equal hashes mean equal indexes |
| `DockerStats.StatsScheduler.CollectStats` | internal/agentcore/docker/collector_stats.go:66-120 | One tick gives the due list, the new cursor and the new schedule of the tick function |
| `DockerStats.StatsScheduler.Sync` | internal/agentcore/docker/collector_stats.go:66-76 | Entries of exactly the running containers, new ones due at once |
| `DockerStats.SelectDue` | internal/agentcore/docker/collector_stats.go:78-95 | The loop with its modular index selects the first 24 due containers of the list rotated at the cursor |
| `DockerStats.SkippedMeansFull` | internal/agentcore/docker/collector_stats.go:82-94 | If a due container is passed over, the selection is full and ends at least 23 places on, before it |
| `DockerStats.DistanceFalls` | internal/agentcore/docker/collector_stats.go:77-97 | The cyclic distance from cursor to a due container falls by at least 24 in a tick that skips it |
| `DockerStats.BoundedWaiting` | internal/agentcore/docker/collector_stats.go:72-98 | With n running containers and a clock that does not go back, a due container is selected within ceil(n/24) ticks, whatever else happens |
| `DockerStats.BoundsInOrder` | internal/agentcore/docker/collector_stats.go:165-188 | Minimum at most maximum if and only if the discovery interval is at most 20 minutes (plus the nanosecond that halving drops) |
| `DockerStats.BoundsInFull` | internal/agentcore/docker/collector_stats.go:165-188 | Both bounds for each range of the discovery interval |
| `DockerStats.DefaultWithin` | internal/agentcore/docker/collector_stats.go:154-188 | The starting interval lies between the bounds if and only if the discovery interval is at most 10 minutes |
| `DockerStats.IntervalsStayWithin` | internal/agentcore/docker/collector_stats.go:190-216 | Every interval reachable by any sampling results lies between the bounds if and only if the discovery interval is at most 10 minutes |
| `DockerStats.ReadingsSteer` | internal/agentcore/docker/collector_stats.go:190-216 | A busy reading shortens the interval until the minimum, an idle one or a failure lengthens it until the maximum |
| `DockerStats.BoundsAreReached` | internal/agentcore/docker/collector_stats.go:190-216 | From anywhere within the bounds seven busy readings reach the minimum, seven failures or twelve idle readings the maximum |
| `DockerStats.SelectedIsPostponed` | internal/agentcore/docker/collector_stats.go:102-120 | A sampled container is due again exactly one interval after its sample, at least the minimum away; others keep their time |
| `DockerStats.StoppedIsDropped` | internal/agentcore/docker/collector_stats.go:67-71 | A container that stopped loses its entry |
| `DockerStats.RunKeepsWithin` | internal/agentcore/docker/collector_stats.go:64-118 | Over every run with any running sets, every schedule entry keeps within the bounds |
| `SelfUpdate.UpdateHost.SwapExecutable` | internal/agentcore/self_update_unix.go:34-45 | What is under the executable and under .previous afterwards, for each way linking, copying, removing and renaming can go |
| `SelfUpdate.UpdateHost.InstallVerified` | internal/agentcore/self_update_rollback.go:81-102 | Nothing changes when the trial fails; a finished swap records the version as pending with no starts |
| `SelfUpdate.UpdateHost.CheckPendingUpdate` | internal/agentcore/self_update_rollback.go:136-158 | Counts a start, or rolls back when there were three already |
| `SelfUpdate.UpdateHost.ConfirmHealthy` | internal/agentcore/self_update_rollback.go:182-200 | Only the first call clears the pending record, and it keeps the rejected version |
| `SelfUpdate.UpdateHost.RollBackUpdate` | internal/agentcore/self_update_rollback.go:204-226 | Restores and exits exactly when pending, not healthy, kept and renamed; otherwise what each failure leaves |
| `SelfUpdate.StepBounded` | internal/agentcore/self_update_rollback.go:81-226 | Every step, with any failing file operation, keeps installs within one plus the lost rejection records |
| `SelfUpdate.InstalledOncePerLostRecord` | internal/agentcore/self_update.go:124-152 | For every run, whatever fails: a release is installed at most once more than rejection records were lost |
| `SelfUpdate.RefusedSteps` | internal/agentcore/self_update_rollback.go:125-131 | Once refused, a release is neither installed nor started again |
| `SelfUpdate.NoUpdateLoop` | internal/agentcore/self_update_rollback.go:125-226 | For every run without file failures, a release that never publishes is installed at most once and started at most four times; after the fourth start the old binary is in place and the release refused |
| `SelfUpdate.OfferedIsInstalled` | internal/agentcore/self_update.go:124-152 | An offered release other than the running binary and the rejected version is installed at the next start that its check lets go on |
| `SelfUpdate.PublishedIsKept` | internal/agentcore/self_update_rollback.go:182-200 | A release on trial that publishes once is never rolled back, whatever happens later |
| `SelfUpdate.DeadlineRollsBack` | internal/agentcore/self_update_rollback.go:162-180 | A release on trial that meets the health deadline unpublished is rolled back at once |
| `SelfUpdate.TrialStartWatches` | internal/agentcore/self_update_rollback.go:136-158 | A start of a release on trial is counted and watched |
| `SelfUpdate.RolledBackExactly` | internal/agentcore/self_update_unix.go:34-61 | After four or more starts the replaced binary is back if and only if the pending record was written and the swap kept that binary (or left an identical one there) |
| `SelfUpdate.LostRejectionReinstalls` | internal/agentcore/self_update_rollback.go:219-226 | A run with one lost rejection record and two installs |
| `ReleaseVersion.LessIsBelow` | internal/agentcore/self_update_verification.go:98-108 | Equal-length digit strings are ordered as their numbers |
| `ReleaseVersion.ValueIsDecimal` | internal/agentcore/self_update_verification.go:84-88 | The number a digit string denotes is its decimal value |
| `ReleaseVersion.BelowIsNumeric` | internal/agentcore/self_update_verification.go:98-108 | Length, then spelling, is numeric order on normal forms of any length |
| `ReleaseVersion.NormalizeIdentifies` | internal/agentcore/self_update_verification.go:89-93 | Two digit strings have the same normal form exactly when they denote the same number |
| `ReleaseVersion.ParseStable` | internal/agentcore/self_update_verification.go:70-96 | Accepts exactly the stable versions, with normal forms of the numbers written |
| `ReleaseVersion.StableExactly` | internal/agentcore/self_update_verification.go:70-96 | Stable means: trimmed, an optional v, then three digit strings with dots between |
| `ReleaseVersion.Compare` | internal/agentcore/self_update_verification.go:98-108 | The loop computes the part-by-part comparison |
| `ReleaseVersion.CompareIsNumeric` | internal/agentcore/self_update_verification.go:98-108 | That comparison is the numeric one of (major, minor, patch), section 11 of Semantic Versioning 2.0.0 |
| `ReleaseVersion.ValidateReleaseTarget` | internal/agentcore/self_update_verification.go:49-66 | An accepted release is for this platform, stable, and not numerically below a stable current version; each refusal has its reason |
| `CommandLine.ParseCommandLine` | internal/securityruntime/command_parse.go:45-125 | The loop computes the tokenizer function, errors included |
| `CommandLine.FeedAppend` | internal/securityruntime/command_parse.go:69-113 | Tokenizing text in two parts is tokenizing it whole |
| `CommandLine.QuoteReads` | internal/securityruntime/command_parse.go:69-113 | Quoted arguments are read back one by one after any arguments already read, and a line break in any of them is refused |
| `CommandLine.QuoteRoundTrip` | internal/securityruntime/command_parse.go:45-125 | Quoting and parsing a list gives it back if and only if its first argument is not blank, it has no NUL or line break and its quoted form fits 64 KiB |
| `CommandLine.AcceptedIsExpressible` | internal/securityruntime/command_parse.go:45-125 | Whatever is accepted parses to the same list when it is quoted again, size permitting |
| `CommandLine.ByteLengthBounds` | internal/securityruntime/command_parse.go:46-49 | The length limit counts bytes: characters for ASCII text, more for other text |
| `CommandWords.UnitReads` | internal/securityruntime/command_parse.go:69-113 | A bare character, an escaped one, a single-quoted and a double-quoted text are each read as what they mean, after anything |
| `CommandWords.WordsRoundTrip` | internal/securityruntime/command_parse.go:45-125 | Words written in any mixture of the four styles, with any blanks around them, are read as what they mean |
| `CommandWords.OperatorRefused` | internal/securityruntime/command_parse.go:107-108 | An operator outside quotes is refused, whatever surrounds it |
| `CommandWords.OpenQuoteRefused` | internal/securityruntime/command_parse.go:117-119 | A quote that is not closed is refused |
| `CommandWords.FinalBackslashRefused` | internal/securityruntime/command_parse.go:114-116 | A final backslash is refused |
| `CommandWords.BreakRefused` | internal/securityruntime/command_parse.go:69-106 | A line break is refused everywhere |
| `AuthorizedKeys.AuthorizedKeysFile.InstallPublicKey` | internal/agentcore/ssh_key_handler.go:218-254 | Adds the line exactly when it is absent and the write works |
| `AuthorizedKeys.AuthorizedKeysFile.RemovePublicKey` | internal/agentcore/ssh_key_handler.go:176-214 | Rewrites the file without the key's lines exactly when there is one and the write works |
| `AuthorizedKeys.HasExactly` | internal/agentcore/ssh_key_handler.go:231-240 | A file has the key exactly when one of its lines is the key once trimmed |
| `AuthorizedKeys.FilterLines` | internal/agentcore/ssh_key_handler.go:194-203 | The loop keeps the lines that do not match, in order |
| `AuthorizedKeys.InstallAppends` | internal/agentcore/ssh_key_handler.go:243-247 | The lines afterwards are the old lines in order, the key, and the empty piece after the final newline |
| `AuthorizedKeys.InstallIsIdempotent` | internal/agentcore/ssh_key_handler.go:218-254 | Installing twice is installing once |
| `AuthorizedKeys.InstallThenRemove` | internal/agentcore/ssh_key_handler.go:185-254 | For every content and absent key, install then remove gives the content back, plus a final newline only if a non-empty file lacked one |
| `AuthorizedKeys.RemoveKeepsOthers` | internal/agentcore/ssh_key_handler.go:185-214 | The remaining lines are those that are not the key once trimmed, in order, and the key is gone |
| `AuthorizedKeys.OthersCount` | internal/agentcore/ssh_key_handler.go:194-203 | Every other line keeps its multiplicity |
| `AuthorizedKeys.RemoveIsIdempotent` | internal/agentcore/ssh_key_handler.go:185-214 | Removing twice is removing once |
| `Reconnect.Jitter` | internal/agentcore/ws_reconnect.go:30-39 | Jitter is below its bound and never negative |
| `Reconnect.JitterReaches` | internal/agentcore/ws_reconnect.go:30-39 | Every length below the bound can come up, and none when the generator fails |
| `Reconnect.ReconnectLoop.Failed` | internal/agentcore/ws_reconnect.go:83-154 | What each kind of failure does to backoff, failure count and re-enrollment time, and how long the loop pauses |
| `Reconnect.ReconnectLoop.ResetFailures` | internal/agentcore/ws_transport.go:116-128 | A new token resets the failure count only |
| `Reconnect.ReconnectLoop.Connected` | internal/agentcore/ws_reconnect.go:156-158 | Connecting resets backoff and count |
| `Reconnect.FailuresCounted` | internal/agentcore/ws_reconnect.go:97-99 | The counter is the number of authentication failures since the last connect or new token |
| `Reconnect.BackoffClosedForm` | internal/agentcore/ws_reconnect.go:135-145 | In every run the backoff is min(60 s, 2^k s) for k quick failures since its reset, so between 1 s and 60 s |
| `Reconnect.WaitsBounded` | internal/agentcore/ws_reconnect.go:83-154 | In every run: from the third authentication failure on, five minutes, or at once exactly when a re-enrollment is due and succeeds; every other failure at least 1 s and less than 75 s |
| `Reconnect.ReEnrollsExactly` | internal/agentcore/ws_reconnect.go:97-128 | In every run a re-enrollment is made exactly at the third or a later authentication failure, when possible and over ten minutes after the last one ended; a successful one restarts backoff and count |
| `Reconnect.ReEnrollmentsSpaced` | internal/agentcore/ws_reconnect.go:109-128 | In every run any two re-enrollments start more than ten minutes apart |
| `UploadQueue.FileWriteQueue.Enqueue` | internal/agentcore/command_file_transfer.go:73-111 | With any writer steps and context ends between the failure check and the last select: an oversized or failed chunk changes nothing; any other is queued, marks its upload failed, or is dropped because its connection ended |
| `UploadQueue.OffersExactly` | internal/agentcore/command_file_transfer.go:73-91 | A chunk is let in exactly with at most 128 KiB and an upload not remembered as failed |
| `UploadQueue.FileWriteQueue.RememberFailed` | internal/agentcore/command_file_transfer.go:144-154 | Adds the ID, emptying a full memory first; an empty ID is not remembered |
| `UploadQueue.FileWriteQueue.Act` | internal/agentcore/command_file_transfer.go:115-135 | The writer takes the oldest chunk, lets it through unless its upload failed, and finishes it |
| `UploadQueue.StepKeeps` | internal/agentcore/command_file_transfer.go:73-154 | Every atomic step keeps the order invariant of every upload |
| `UploadQueue.HandledInOrder` | internal/agentcore/command_file_transfer.go:73-154 | In every interleaving, the handled chunks of an upload on a connection are a prefix, in delivery order, of its size-accepted chunks, unless its ID was forgotten |
| `UploadQueue.NothingForgotten` | internal/agentcore/command_file_transfer.go:144-154 | While the read loop has given up at most 128 times, no failed upload is forgotten |
| `UploadQueue.HandledInOrderWithin` | internal/agentcore/command_file_transfer.go:73-154 | So in every run with at most 128 give-ups the handled chunks of every upload are a prefix of its size-accepted chunks |
| `UploadQueue.AllHandledWhenDrained` | internal/agentcore/command_file_transfer.go:73-140 | Once the queue has drained, an upload that never failed on a live connection had every chunk handled |
| `UploadQueue.QueueBounded` | internal/agentcore/command_file_transfer.go:144-154 | Queue and memory stay bounded, and only a failure that finds 128 remembered IDs forgets any |
| `UploadQueue.ForgottenResumes` | internal/agentcore/command_file_transfer.go:144-154 | From a full memory, one more failure lets a forgotten upload's next chunk be handled |
| `UploadQueue.OneMoreFailure` | internal/agentcore/command_file_transfer.go:73-154 | The bound is sharp: a run from the start with 129 give-ups in which an upload's second chunk is handled and its first is not |

## Left out

- HTTP, TLS, WebSocket framing, JSON, base64, signatures, checksums and URL rules: results are parameters, and checksums identify binaries.
- Terminal, desktop, WebRTC, audio and file managers: not modelled; of `beforeConnect` only the exec and log managers are.
- Log decoding of TTY containers, context cancellation between frames and the text of a daemon error: only the framed branch and its verdict are modelled; a stream-3 frame fails.
- Exec input and resize, close reasons and the output's contents: they decide no ownership.
- `lastError`, `disconnectedAt`, status fields and counters of the transport, and waiting after an enrollment rejection: they do not take part in the properties.
- Identity rules for URLs and asset IDs: arbitrary functions.
- The connect section's closing of other managers, and persistence of enrollment state: not part of this model.
- The order of entries inside full and delta messages: messages carry maps and sets; Compose lists keep their order.
- The asset ID does not change within one refresh, and at most one reset falls into one refresh.
- How scans build container entries and Compose stacks (`buildContainerInfoMap`, `inferComposeStacks`): scans are inputs, with Compose lists sorted by distinct names; images, networks and volumes are compared by value.
- Stats payloads, publishing decisions and CPU or memory percentages: readings are inputs; 64-bit overflow of durations is not modelled.
- Forced updates, a crash between two file operations of an install, partly written copies and Windows: not modelled; a crash before a record is written is the case of a failed write.
- `EqualFold` on letters outside ASCII, and strings that are not valid UTF-8: strings are sequences of Unicode characters.
- Removing the record file kept beside the agent token, file modes and directories for authorized_keys: not modelled; key parsing is the condition that a key is one trimmed non-empty line.
- Writing chunks to disk and aborting uploads: the upload model ends where the file manager begins; an oversized chunk is refused without marking its upload failed, so prefixes are of the size-accepted chunks.
- Logging, error texts and wrap-around of version, generation and sequence counters.
