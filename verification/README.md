# Verification of the Discord voice bridge

The bridge records a Discord voice channel, cuts each speaker's sound into segments, has them transcribed by a slow
worker, and writes the text into the tables of a meetings database. Two of its components carry the risk, and both are
modelled here with every await, file operation and database statement as a point where something else may happen.

**Capture to database (`bot.py`, `completion_webhook.py`).** `PcmBuffer` holds the live sound and cuts it
(`PcmBuffer.dfy`, `Segmentation.dfy`). Segments become two files of a directory, which is a queue that survives
crashes; one drain task replays it; `/leave` marks a meeting on disk, and the drain task later completes it.
`Pipeline.dfy` is this as a step machine with 32 actions, one of them a crash that may come between any two others;
each file operation, read, statement and await can fail. `PipelineFrames.dfy` says what each action may touch,
`PipelineInvariant.dfy` proves what every step keeps, and `CompletionSafety.dfy`, `Repeats.dfy`, `Fifo.dfy`,
`StatusMachine.dfy` and `Witnesses.dfy` prove what runs promise. `Capture.dfy` joins the machine to the buffers, and
`Recordings.dfy` traces what a row says back to the frames that were heard. `Bridge.dfy` follows the code itself, a
class whose methods change directory, tables and memory in place; its `Valid()` says that whatever it did to these is
a run of the step machine of `Pipeline.dfy`, so that what is proved of all its runs holds of the class. The buffers of
the class have contracts of their own; the theorems of `Recordings.dfy` are about the joined machine. `BridgeSpec.dfy`
has the values that the contracts of the class speak of, `Names.dfy` the file names that the completion test compares,
and `Webhook.dfy` the notification of a completed meeting.

**Encrypted receive path (`dave_voice/`).** `Opcodes.dfy`, `Rtp.dfy` and `Framing.dfy` are the byte formats, of the
gateway and of RFC 3550. `Mls.dfy`, `VoiceClient.dfy` and `VoiceGateway.dfy` have the three stateful classes, each
method proved against an operation on values; `VoiceGateways.Step` puts these together into one machine, in which
packets come between any two steps, also between the reply to a commit and the `on_mls_change` that follows it.
`VoiceRuns.dfy`, `Ratchets.dfy`, `Speakers.dfy`, `Handshake.dfy` and `Playback.dfy` are about its runs; the last reads
all that is ever played off the messages and packets alone.

Foreign code is abstract. The session answers what an event says it answers, a decryptor and an Opus decoder are
arbitrary functions of all that was done to them before, and the transport cipher is an arbitrary function, with
`open` inverting `seal` only where a lemma says so. Times are integer ticks.

What the code does and a reader might not expect:

- `/leave` does not await the store tasks that `flusher` created (bot.py:451, bot.py:559-569). A meeting may be
  completed before its last segments are on disk.
- The drainer treats a read that fails like a file that is broken: it deletes the pair (bot.py:370-376). A whole
  segment is then lost, and its meeting can be completed without it. `MarkExact` and `CompletionSafety` show that
  these two are the only ways: completion is safe if and only if no store task with a segment long enough to keep is
  in flight at the mark, and no read of a spilled segment of the meeting fails before it is settled. `Witnesses.dfy`
  has a run for each.
- A segment may get several rows: the INSERT and the unlinking of the files are not one transaction (bot.py:277-296,
  bot.py:384-387). `Witnesses.RowTwice` is such a run. `InterruptionExact` shows that exactly a crash, or a failure or
  the end of the drain task, between the two makes it possible: a segment gets no more than one row, and one for each
  such interruption of it (`RowsPerInterruption`). `RowsFinalExact` shows that its rows are final, whatever happens,
  exactly once its files cannot be read any more. Repeats are contiguous (`RowsFollowSpillOrder`).
- The comment above the INSERT of `/join` (bot.py:494-498) speaks of a partial unique index of the database, which is
  not part of this repository. `OneOpenRow` does without it: `channel.connect` refuses a guild that has a voice client
  (bot.py:476-484), and only `disconnect` gives it up (dave_voice/discord_protocol.py:60-65), so that two joins of a
  channel are never both between their UPDATE and their INSERT.
- `dave_version` is set by op 4 only (dave_voice/voice_client.py:56). `FreshnessExact` shows that ratchets are kept
  current exactly from then on; after an upgrade by op 24 alone they are not.
- A speaking event that reassigns an SSRC keeps its decryptor (dave_voice/voice_client.py:63-67). `OwnershipExact`
  shows when that leaves a foreign ratchet in place, and `TakeoverHappens` that it can.
- CSRC words are skipped and not authenticated (dave_voice/voice_client.py:115-122). `PartitionExact` and
  `AssociatedDataExact` have the exact conditions under which the slices are what their names say.
- A send that fails after a commit or welcome ends the receive loop before the ratchets are refreshed
  (dave_voice/voice_ws.py:127-136), while packets are still decrypted. `RatchetFreshness` says, in every phase of the
  loop, that decryptors are current unless a refresh is due, which the messages alone tell; `StaleExactly` that, where
  accepted commits and welcomes bring new ratchets, they are stale exactly then; and `SendFailureStale` has the run.

## Model

| member | source | states |
|---|---|---|
| CompletionSafety.CompletionSafety | bot.py:321-389 | over every run with crashes, for a meeting marked with no spillable store task in flight: when its row is `completed`, none of its segments is pending, each spilled one has a row or was answered as silence if and only if no read of one of them failed, and in no continuation is another one spilled |
| CompletionSafety.MarkExact | bot.py:550-570 | right after `/leave` marks a meeting, completion is safe in all continuations without a failing read of the meeting, if and only if no store task of it with a long enough segment is in flight at the mark and no read of it failed before |
| CompletionSafety.MarkIsUnsafe | bot.py:442-451 | from any state with such a task the bad run exists: the meeting is completed and a segment of it spilled afterwards |
| CompletionSafety.FailedReadBreaks | bot.py:370-376 | from any state a failing read of a spilled and unsettled head of a marked meeting leads to the completion of the meeting without it |
| CompletionSafety.ReadLostExact | bot.py:370-376 | over any run the segments deleted because of a failing read grow exactly when a read of one that is spilled and not settled fails |
| Witnesses.MarkCanFail | bot.py:559-570 | a reachable state in which `/leave` marks a meeting with a long store task in flight, so that completion is not safe |
| Witnesses.ReadCanFail | bot.py:370-376 | a reachable mark with nothing in flight and nothing lost, and a continuation with a failing read in which the meeting is completed with a spilled segment unsettled |
| CompletionSafety.DrainPossible | bot.py:358-413 | while a drain task lives and the event loop is free, some schedule empties the queue, completes every marked meeting and clears all markers, with all store tasks in flight where they were |
| CompletionSafety.AlwaysDrainable | bot.py:395-419 | the same from every reachable state, also in the middle of a spill or a deletion, which is then brought to its end, and with the drain task dead, which `ensure_drain_loop` then starts |
| CompletionSafety.SettledMeansRow | bot.py:275-296 | a settled segment that was not silent has a row with the meeting and session it was cut in, with start and end of the cut less the start of the recording, and a name that was given for the user whose sound was cut |
| CompletionSafety.CleanRun | bot.py:559-569 | a clean mark stays clean over every run, and the set of spilled segments of its meeting is final |
| PipelineInvariant.ReachableInv | bot.py:219-453 | the invariant of directory, tables, tasks and histories holds in every state that a run with crashes can reach |
| PipelineInvariant.PrefixTest | bot.py:330-333 | the test on name prefixes decides whether the meeting has a pending sidecar |
| Fifo.DirectoryRefinesQueue | bot.py:219-258 | each step of the directory, crashes included, is one of an abstract FIFO: a completed spill enqueues at the tail; an insert, an empty answer or a failing read for the head dequeues it; nothing else changes the queue; given increasing modification times |
| Fifo.QueueIsExact | bot.py:358-389 | a segment is in the queue if and only if it was spilled, is not settled, and no read of it failed; and then both its files are there |
| Fifo.PassTakesHead | bot.py:358-366 | while any sidecar is there, a pass of a drain task goes on with the oldest one and with nothing else; only an empty directory leads straight to a finalization pass |
| Fifo.RowsFollowSpillOrder | bot.py:248-252 | rows are in the order their segments were spilled; repeats of a segment are contiguous, and there are none in a run in which it was not interrupted between its INSERT and the unlinking of its files; given increasing modification times |
| Repeats.RowsPerInterruption | bot.py:358-389 | over every run a segment has at most one row more than it was interrupted between its INSERT and the unlinking of its files; so without interruption an inserted segment has exactly one row |
| Repeats.ExposedExactly | bot.py:383-387 | a step leaves a segment with a row, readable files and no task about to unlink them if and only if it was so before or the step is such an interruption: a crash, or the failure or end of the drain task |
| Repeats.AgainExact | bot.py:358-389 | a segment that has a row can get another without a further interruption, also through a restart, if and only if it is in that state |
| Repeats.InterruptionExact | bot.py:275-296 | of all steps, exactly such an interruption makes a segment with a row able to get another one |
| Repeats.RowsFinalExact | bot.py:386-387 | the rows of a segment that has one stay as many in every continuation, whatever fails, if and only if its two files cannot be read any more |
| Witnesses.RowTwice | bot.py:275-296 | a run from a reachable state in which a segment gets two rows: the drain task fails after the INSERT and starts again |
| StatusMachine.DirectoryShape | bot.py:232-244 | every `.wav` has its `.json`; a `.json` alone is a torn spill, settled or unread; a spilled segment that is not settled has both files, with its own sound, if and only if no read of it failed |
| StatusMachine.OneFate | bot.py:422-439 | every segment cut is in exactly one of: in flight, dropped as short, spilled, lost; what is dropped has less than 76,800 bytes, 0.4 seconds, and what is spilled has that or more |
| StatusMachine.NothingLost | bot.py:422-453 | in every run without crash or failure, the segments ever cut are exactly those in flight, dropped as short, or spilled, and these three are disjoint |
| StatusMachine.LossNeedsFailure | bot.py:422-439 | over a run, only a crash, a failed store or an abandoned `/leave` loses audio that was cut |
| StatusMachine.SegmentsAreOpened | bot.py:513-520 | every segment belongs to a recording that a `/join` opened earlier in the run, with the session and the start it was opened with |
| StatusMachine.AfterCrash | bot.py:576-588 | a crash keeps directory and tables, loses the store tasks in flight, and leaves a state in which every guild can be joined and a drain task started |
| Recordings.SoundConserved | bot.py:101-136 | for each meeting and user the bytes heard since the voice client starts, before the recording is entered in `active`, are, in order, those of the segments cut for that user, of the cuts `/leave` has yet to store, and of the live buffer; and the segments counted are all that were cut, each once |
| Recordings.SinkIsSegmentation | bot.py:442-453 | under every interleaving with the machine, a meeting's buffer and the list of all that was cut from it are exactly what its own writes, polls and `drain_all` alone make of an empty buffer, so that all that is proved of one buffer below holds of the sound that reaches the disk |
| Recordings.SegmentTimes | bot.py:110-133 | each segment is all that was heard of its user from the first non-empty frame since the user's previous segment to the poll that found a silence or the `drain_all` of `/leave`, and its times are those of its first and last frame |
| Recordings.RowTimes | bot.py:434-437 | a row's start and end are the times of those two frames, since the start of the recording |
| Recordings.CrashLosesBuffers | bot.py:101-109 | a crash loses every buffer and all that was popped or being stored, and nothing on disk or in the tables |
| Recordings.RecordedIsStored | bot.py:422-453 | without crash or failure, once a meeting is marked all bytes of each user heard since the voice client started are exactly those of the segments cut for that user, each in flight, short or spilled |
| Recordings.CompletedIsHeard | bot.py:321-389 | end to end: without crash or failure, in a completed meeting whose mark was clean, all that was heard of each user is in the segments, in order, and those settled, by a row or an answer of silence, are exactly those long enough to keep, if and only if no read of the meeting's files failed |
| StatusMachine.StatusRisesOverRun | bot.py:493-512 | over any run a row never disappears, changes its channel, or moves down in `active` < `failed` < `completed` |
| StatusMachine.FailsExactly | bot.py:499-505 | an active row fails in a step if and only if the step is the UPDATE of a `/join` of the row's own channel, or the one with which the `/join` that made the row gives up |
| StatusMachine.FailedByJoin | bot.py:493-540 | over every run an active row fails only so; no other meeting is touched |
| StatusMachine.CompletedWasMarked | bot.py:334-340 | a `completed` row implies an earlier end of `/leave` for that meeting in the run |
| StatusMachine.MarkedOrCompleted | bot.py:334-340 | in every reachable state, after any crash, the meetings marked by `/leave` are exactly those with a marker on disk or a `completed` row: the row is updated before the marker goes |
| StatusMachine.OneOpenRow | bot.py:493-512 | a channel has at most one non-terminal row, in every reachable state |
| StatusMachine.OneHolder | bot.py:476-484 | at most one join, recording or leave has the voice client of a guild, in every reachable state; so joins of a channel never overlap |
| StatusMachine.VoiceIsHeld | bot.py:550-563 | over every run in which no `/join` or `/leave` ends in an exception, crashes included, a guild's voice client is registered exactly while a join, recording or leave has it |
| StatusMachine.OneDrainer | bot.py:416-419 | at most one drain task is alive under every interleaving, and it is the one remembered |
| StatusMachine.WebhookOnce | bot.py:341-355 | across crashes at most one webhook task is created per meeting, only for a completed row whose marker is gone |
| Bridge.Bridge.SpillSegment | bot.py:219-245 | sidecar first, with meeting, session, speaker and the two times since the start of the recording, audio second; whichever of the four file operations fails, exactly what was written before it is there, and the task, with a `/leave` that awaits it, is gone |
| Bridge.Bridge.Store | bot.py:422-439 | less than 76,800 bytes: no file changes; otherwise the files of the segment, its times those of the cut less the start of the recording, whole if no operation fails, else as far as they got |
| Bridge.Bridge.Flush | bot.py:442-453 | a turn of `flusher` pops what `drain_ready` yields from the guild's buffer and leaves the task table that adding just these cuts to the old one gives |
| BridgeSpec.AddJobsOneEach | bot.py:450-451 | that table has one task of its own for each popped segment, with its user, sound and times, and all the old ones |
| Bridge.Bridge.ScanPending | bot.py:248-252 | all sidecars, each once, in order of modification time |
| Bridge.Bridge.InsertTranscription | bot.py:275-296 | the row is there if the first statement succeeds, even when the second fails and the call raises |
| Bridge.Bridge.FinalizeCompleted | bot.py:321-355 | the marked meetings without pending files are completed and unmarked, up to the first UPDATE that raises, with a webhook task for each that has a row; nothing else changes |
| Bridge.Bridge.DrainOnce | bot.py:358-389 | a pass deals with the oldest sidecar only: it stays when the worker, a statement or an unlinking failed, without its `.wav` if only the second unlinking raised, and with nothing else changed on disk; it goes when it was incomplete, could not be read, was silent or inserted, and in the last two cases each meeting that is still marked has pending files; an idle pass clears all markers |
| Bridge.Bridge.DrainLoop | bot.py:395-413 | any number of passes, with no new spills, keeps the tally that the next row reads |
| BridgeSpec.DrainProgress | bot.py:395-413 | as long as no pass was idle, the queue is empty exactly when the passes are as many as pending segments plus failed passes; if all files are there and no `.wav` goes alone, the failed passes are exactly those in which the worker, a statement or an unlinking failed; one more pass is idle |
| Bridge.Bridge.EnsureDrainLoop | bot.py:416-419 | a new task only when there is none or it is done; afterwards the remembered task is alive |
| Bridge.Bridge.ConnectVoice | bot.py:476-484 | a guild that has a voice client is refused, and nothing changes; otherwise the join has it |
| Bridge.Bridge.OpenMeeting | bot.py:493-512 | after the SQL section of `/join` the new row is the one open row of its channel: those that were open in this channel have failed, and all other rows, of this channel and of others, are as before |
| Bridge.Bridge.StartRecording | bot.py:520-545 | the end of `/join`: the guild is recording into the buffer made before the client started, with what that has heard since, and a drain task is alive |
| Bridge.Bridge.GiveUp | bot.py:532-540 | a voice client that does not come up is disconnected and the row of the meeting failed |
| Bridge.Bridge.Leave | bot.py:550-570 | all that the guild's buffer holds is popped and stored before the marker is touched, other store tasks are left in flight, and a drain task is alive; if `client.stop` or `vc.disconnect` raises, nothing is popped, and if a store fails, what came before it is on disk; in both cases there is no marker |
| BridgeSpec.LeaveStoresEach | bot.py:563-565 | each segment that `/leave` stored has both files, its own sound and a sidecar with its start and end since the start of the recording, or has less than 76,800 bytes and none |
| BridgeSpec.DrainedEmpties | bot.py:563-565 | what `/leave` pops has each user's sound, and nothing is left in the buffer |
| PcmBuffers.PcmBuffer.Write | bot.py:110-116 | the write equals the operation on values whose runs the following theorems are about |
| PcmBuffers.PcmBuffer.DrainReady | bot.py:118-133 | one pass over the users returns exactly the cuts of those silent for the threshold and empties their buffers |
| PcmBuffers.PcmBuffer.DrainAll | bot.py:135-136 | returns a cut for every user with sound and leaves every buffer empty |
| Segmentation.Conservation | bot.py:101-136 | for each user the bytes cut so far, in order, followed by the live buffer are exactly the bytes written |
| Segmentation.LiveSpan | bot.py:110-116 | what is live of a user started with the first non-empty write since the user's previous segment, was last written by the last write, and is all that was written in between |
| Segmentation.CutSpan | bot.py:118-133 | every segment ever cut starts at the time of that first write, ends at that of its last, has all that was written in between, and was cut by a poll at least the threshold later or by `drain_all` |
| Segmentation.CutsInOrder | bot.py:118-133 | a pass adds its cuts after all earlier ones, in the order in which their users first wrote |
| Segmentation.LeaveEmptiesBuffer | bot.py:563-565 | after the `drain_all` of `/leave` every byte written has been cut |
| Segmentation.SurvivesUntilEnded | bot.py:118-130 | after a write a segment stays live if and only if no later poll reached the threshold and no `drain_all` came |
| Segmentation.CloseWritesShare | bot.py:118-130 | writes of a user less than the threshold apart are never separated by a poll |
| Segmentation.DistantWritesSplit | bot.py:442-451 | writes of a user at least threshold plus polling period apart never share a segment |
| Segmentation.SegmentsApart | bot.py:118-130 | consecutive segments of a user are at least the threshold apart |
| Names.PrefixIdentifiesMeeting | bot.py:231-231 | the part of a sidecar's name before the underscore is the decimal of a number exactly when the file was spilled for that meeting |
| Names.FinalizingRoundTrip | bot.py:261-272 | touching markers and listing them back gives exactly the marked ids, once each, ascending |
| Names.DecimalInjective | bot.py:330-333 | `str` of two ids agrees exactly when the ids do |
| Names.KnownNames | bot.py:231-232 | names as they are on disk |
| Webhook.BuildEnvelope | completion_webhook.py:45-81 | there is always a start time, the first known of start, end and creation, and an end time exactly when the row has one; ids and creation time are those given, and the event id depends on the meeting only |
| Webhook.EventIdIdentifiesMeeting | completion_webhook.py:61-62 | event ids agree exactly when the meetings do, whatever the times, unless the hash collides on their seeds |
| Webhook.Emit | completion_webhook.py:107-136 | at most `attempts` identical posts whose signature the receiver's check accepts; it stops at the first 2xx and reports success exactly when the last post was one |
| Opcodes.DecodeEncode | dave_voice/opcodes.py:37-46 | decoding inverts the encoding of a server message |
| Opcodes.EncodeDecode | dave_voice/opcodes.py:37-41 | decoding fails only on messages of less than three bytes; otherwise the first two bytes are the sequence number in network byte order, the third is the op, and nothing is lost |
| Rtp.ParsePut | dave_voice/rtp.py:20-30 | every fixed header parses back to its fields, whatever follows it |
| Rtp.PutParse | dave_voice/rtp.py:20-30 | what parses has at least twelve bytes, its fields are read in network byte order, and it is the header these are written as, followed by the body |
| Framing.PartitionExact | dave_voice/voice_client.py:112-124 | header, ciphertext and nonce partition a datagram if and only if the low four bits of its first byte, the number of CSRC words, are zero and, when bit X is set, it has at least 20 bytes, one coincidence apart |
| Framing.CutExists | dave_voice/voice_client.py:102-123 | a datagram is not dropped before decryption if and only if it has room for header, CSRC words and nonce |
| Framing.FlagsRead | dave_voice/voice_client.py:113-114 | from the first byte of RFC 3550, written from version, padding, extension and CSRC list, the receiver reads exactly whether there is an extension and how many CSRC words there are |
| Framing.ReceiveSent | dave_voice/voice_client.py:112-135 | for every packet written from the fields of RFC 3550, with or without padding bit, extension or CSRC list, the DAVE decryptor gets exactly the frame that was sent |
| Framing.ReceivedIsOpened | dave_voice/voice_client.py:126-135 | every frame that gets through is the end of a plaintext that the cipher opened |
| Framing.AssociatedDataExact | dave_voice/voice_client.py:115-122 | a sender that authenticates all it sends in clear agrees with the receiver exactly when there are no CSRC words |
| Mls.MlsManager.SetVersion | dave_voice/mls.py:33-36 | the new version, which reaches the session only once it has a group |
| Mls.MlsManager.InitializeGroup | dave_voice/mls.py:38-50 | a session that has a group is reset before `init`; the reply is the key package |
| Mls.MlsManager.OnPrepareEpoch | dave_voice/mls.py:55-62 | epoch 1 makes a new group and publishes it, a later one changes the version only |
| Handshake.AskedExactly | dave_voice/mls.py:64-92 | over all runs the session is given every external sender, proposal, commit and welcome that comes, in order, and with proposals and welcomes exactly the users present at that point |
| Mls.MlsManager.OnAnnounceCommit | dave_voice/mls.py:81-83 | the session gets the commit; the new ratchets when accepted, and the verdict on the transition |
| Mls.MlsManager.OnWelcome | dave_voice/mls.py:85-92 | likewise with the welcome and the recognized users, a missing result being invalid |
| Mls.MlsManager.RefreshRatchets | dave_voice/mls.py:101-105 | the loop leaves the registry in which exactly the mapped SSRCs whose users have a ratchet are moved to it |
| VoiceClients.OpusDecoders.Decode | dave_voice/opus_decode.py:17-25 | the sound depends on all that this SSRC decoded before and on nothing of another SSRC |
| VoiceClients.OpusDecoders.Reset | dave_voice/opus_decode.py:27-28 | one decoder is forgotten, the others stay |
| VoiceClients.VoiceClient.OnSessionDescription | dave_voice/voice_client.py:55-61 | the versions are set even when the key is unusable and the callback raises |
| VoiceClients.VoiceClient.OnSpeaking | dave_voice/voice_client.py:63-67 | user recognized, SSRC mapped, ratchets refreshed under the guard |
| VoiceClients.VoiceClient.OnClientsConnect | dave_voice/voice_client.py:69-73 | all users recognized, ratchets refreshed under the guard |
| VoiceClients.VoiceClient.OnClientDisconnect | dave_voice/voice_client.py:75-81 | the user and all entries of the user's SSRCs leave every table |
| VoiceClients.VoiceClient.OnMlsChange | dave_voice/voice_client.py:83-92 | the refresh, under the guard |
| VoiceClients.VoiceClient.OnPreparePassthrough | dave_voice/voice_client.py:94-96 | every decryptor, and nothing else, is moved to passthrough |
| VoiceClients.VoiceClient.HandlePacket | dave_voice/voice_client.py:99-142 | the packet does what the operation on values does that all run theorems are about, with every reason to drop it |
| VoiceGateways.VoiceGateway.SendReply | dave_voice/voice_ws.py:110-117 | no reply, no message; otherwise text or binary by the op, and a failed send ends the loop |
| VoiceGateways.VoiceGateway.DispatchBinary | dave_voice/voice_ws.py:119-137 | the binary half of a dispatch is a step of the machine |
| VoiceGateways.VoiceGateway.DispatchText | dave_voice/voice_ws.py:139-172 | the text half of a dispatch is a step of the machine |
| VoiceGateways.VoiceGateway.FinishDispatch | dave_voice/voice_ws.py:127-136 | what follows the reply to a commit or welcome is a step of the machine |
| VoiceRuns.SessionDiscipline | dave_voice/mls.py:33-62 | over all runs the manager knows whether the session has a group, and then version and group id agree; `init` and `set_protocol_version` are never called out of turn |
| VoiceRuns.RegistriesAgree | dave_voice/voice_client.py:63-81 | over all runs Opus decoders are among the decryptors, these among the mapped SSRCs, and every mapped user is recognized |
| VoiceRuns.MappedExactly | dave_voice/voice_client.py:63-81 | an SSRC is mapped to a user if and only if a speaking event bound it and no disconnect of the user or other claim came since |
| VoiceRuns.NothingLeft | dave_voice/voice_client.py:75-81 | after a client disconnect no table has anything keyed to the user or the user's SSRCs |
| VoiceRuns.RecognizedExactly | dave_voice/voice_client.py:63-81 | a user is recognized if and only if a connect or speaking event introduced the user and no disconnect came since |
| VoiceRuns.HeartbeatOnce | dave_voice/voice_ws.py:119-148 | one heartbeat task in all, from the first Hello on, and the sequence number to acknowledge is the last one received |
| VoiceRuns.Attribution | dave_voice/voice_client.py:99-142 | each sound played for a user came out of its own packet, whose SSRC was bound to that user at that time |
| VoiceRuns.StepPcm | dave_voice/voice_client.py:135-142 | a step calls `on_pcm` if and only if it is a packet of a mapped SSRC whose frame the key opens and of which decryptor and Opus decoder both make something; then once, with that, for the user of the SSRC |
| Playback.PlaysExactly | dave_voice/voice_client.py:99-142 | over every run all calls of `on_pcm`, in order, are those that a function of the messages and packets alone gives: whose SSRC it is, the key, what the decryptor and the Opus decoder went through before, and what foreign code makes of the frame |
| Playback.SentIsPlayed | dave_voice/voice_client.py:99-142 | end to end: a packet sealed under the current key is played for the user of its SSRC as what the Opus decoder, after all it decoded before, makes of what the decryptor, after all that was done to it before, makes of the frame that was sent, if both yield anything |
| Playback.KeyTold | dave_voice/voice_client.py:55-61 | the transport key is that of the last op 4 that had a usable one |
| Playback.PastTold | dave_voice/mls.py:94-105 | over every run exactly these things were done to the decryptor of an SSRC, in order: a move to its user's ratchet at each refresh in a DAVE call, a move to passthrough at each op 21 with version 0, and each frame that came for it; and a disconnect of the user starts it anew |
| Playback.DecodedTold | dave_voice/opus_decode.py:17-28 | over every run an Opus decoder decoded exactly what the decryptor of its SSRC made of the frames that came for it since the last disconnect of its user |
| Ratchets.RatchetFreshness | dave_voice/voice_ws.py:110-136 | over every interleaving with packets, whether the loop waits, is between a reply and `on_mls_change`, or has ended: unless a refresh is due, each mapped SSRC whose user has a ratchet has a decryptor holding exactly that one; and between dispatches of a call with version at least 1 none is due |
| Ratchets.StaleExactly | dave_voice/voice_ws.py:127-136 | if each accepted commit or welcome brings new ratchets and nobody speaks before op 4, decryptors are current, in every phase, if and only if no refresh is due since the last accepted one or no mapped user has a ratchet |
| Ratchets.SendFailureStale | dave_voice/voice_ws.py:110-136 | a run in which the reply to a welcome cannot be sent, so that the loop ends and a decryptor stays without its user's ratchet |
| Ratchets.FreshnessExact | dave_voice/voice_client.py:83-92 | decryptors stay current in every continuation without another op 4 if and only if the version is at least 1; else an upgrade by op 24 and a welcome leave them stale |
| Ratchets.TakeoverHappens | dave_voice/voice_client.py:63-67 | a run in which a speaking event takes an SSRC over and a decryptor is left with a foreign ratchet |
| Ratchets.HeldIsLogged | dave_voice/mls.py:94-105 | what a decryptor is said to hold is the last ratchet it was moved to |
| Ratchets.SentFrameMeetsItsRatchet | dave_voice/voice_client.py:99-142 | end to end, in every phase of the loop: while no refresh is due, a frame sent by a user of the group reaches, unchanged, a decryptor whose last move was to the user's current ratchet |
| Ratchets.OwnershipExact | dave_voice/voice_client.py:63-67 | throughout a run decryptors hold ratchets of the mapped user only, if and only if no speaking event takes an SSRC over from a decryptor that it cannot rewire |
| Speakers.NonInterference | dave_voice/voice_client.py:99-142 | deleting all packets of other SSRCs from a run leaves the sound of this SSRC and all replies as they were |
| Ratchets.PassthroughExactly | dave_voice/voice_ws.py:161-165 | op 21 with version 0 moves every decryptor to passthrough, and no other step moves any |
| Handshake.ReplyTrace | dave_voice/voice_ws.py:110-165 | while the loop lives, what was sent is exactly what the messages call for, in order and one for one: ops 23 and 31 with the transition ids of ops 21, 29 and 30 and the right verdict, op 26 for each announced group, op 28 for each commit; a failed send loses the last one at most |
| Handshake.SentRightForm | dave_voice/voice_ws.py:110-117 | over all runs ops 23 and 31 go as text with a transition id, ops 26 and 28 in binary, and nothing else is sent |
| Handshake.SessionFollows | dave_voice/mls.py:38-92 | over all runs the session was initialized once for each announced group, has the version announced last, by op 4 or 24, and exactly the ratchets of the last accepted commit or welcome of its group |
| Handshake.KeyPackagePerGroup | dave_voice/mls.py:38-50 | as many ops 26 were sent as groups initialized, or one less if the last send failed |
| Handshake.PhaseFollows | dave_voice/voice_ws.py:85-136 | over every run the receive loop ends with the first message that raises, which is told from the messages alone, or when it is closed, and with nothing else; it stands before `on_mls_change` exactly after a commit or welcome that did not raise |
| Handshake.ComesNext | dave_voice/voice_ws.py:85-92 | messages are handled one at a time, the rest of a dispatch comes before the next message, and packets come at any time |

## Left out

- Rounding of floating-point times, offsets and lengths: times are integers and a segment's length is compared exactly.
- Environment configuration: the minimal length is its default of 400 ms, the silence threshold is a parameter.
- `transcribe` beyond its three outcomes (no answer, empty text, text): its request loop would only add easy members.
- `to_mono_wav`, WAV writing and libopus: foreign code; a `.wav` file is recorded as the downmix of some PCM.
- The cipher, HMAC, SHA-256 and everything inside `dave.py`: abstract, as said above; a session is assumed to export only the ratchets of its last accepted commit or welcome.
- HTTP, WebSocket, UDP and asyncpg plumbing, IP discovery, `connect`, `start` and `stop`: the machine starts with an open gateway.
- Discord's slash-command responses, display names (what `name_for` answers is an input, recorded with the user it was asked for) and the credential capture of `DAVEVoiceProtocol`; of the voice connection there is the registration per guild, which py-cord is taken to hold until `disconnect`.
- The `meeting_sessions` row, `updated_at`, `end_time` in tables, and the `language` column: nothing reads them.
- Heartbeat timing and content: the machine has the start of the task and the last sequence number.
- The URL and secret gate of the webhook, and its back-off: whether the task is created is an input, and so are the answers to its posts.
- JSON parsing: a text message is its decoded content, or one that raises before anything changes.
- The thread lock of `PcmBuffer`: its operations are atomic.
- What a session does without a group: an answer that advances the epoch is only possible once there is one.
- The class methods of `Bridge` run one after the other; how coroutines interleave is the business of the step machine, which has all their intermediate states.
- Decryptors and Opus decoders are values of their tables and not objects of their own: nothing else refers to them.
- Python's `sorted` stands as a selection loop in `ScanPending`, and dictionary order shows only in the order of cuts.
- Fifo.RowsFollowSpillOrder: claimed for strictly increasing modification times only, because the code sorts by them and leaves ties to the file system.
- Fifo.DirectoryRefinesQueue: likewise.
- Ratchets.OwnershipExact: assumes that a session exports for each user a ratchet of that user.
- Webhook.EventIdIdentifiesMeeting: assumes that the hash does not collide on the two seeds, since 32 hexadecimal digits cannot be injective.
- CompletionSafety.DrainPossible: some schedule, not every one, because the worker may never answer.
- CompletionSafety.AlwaysDrainable: likewise.
- Ratchets.StaleExactly: assumes that an accepted commit or welcome brings ratchets of a new epoch, as the protocol has it, and excludes speaking events before op 4, which are counted as making a refresh due although they may change nothing.
- The buffers of the class `Bridge` are not tied to a run of `Capturing`: each method says what it does to them.
- Sound that a voice client hears although its start failed: its buffer is dropped with the `/join`.
