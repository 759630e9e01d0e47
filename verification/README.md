# PepeAudio: verified models of the stateful cores

This project models the parts of PepeAudio that keep state across failures: the actors that
announce which guilds an instance serves, the delivery of commands to guild players, the
quota and the leases of downloaded media, the real-time audio path, the end of a track, and
the signed ids of Discord components. `dafny verify dfyconfig.toml` checks all of it.

Two shapes recur. Where the program changes things step by step there is a class whose
methods follow the code's branches, each proved against a function of the state before. Where
several tasks interleave there is a step machine on values: `Enabled` says which atomic step
may happen, `Apply` what it does, `Exec` what a sequence of steps leads to; the theorems
quantify over every sequence, so over every interleaving, failure and redelivery the machine
allows. The classes `PresenceActor`, `ShardWorker`, `Cluster`, `Lifecycle` and `MediaRoot` then
show that the code is such a machine: their `Valid` says that the object's state is reached by
some run, and other tasks may act before each of its calls.

| file | models |
|---|---|
| `Signal`, `Ramp`, `Fir`, `AudioProcessor`, `PcmPump` | sample guards, ramps and gain, the direct FIR, the per-block processor, the PCM worker loop |
| `GuildPresence`, `GuildLifecycle` | the presence actor with its heartbeat, and the lifecycle actor above it |
| `GuildDispatcher`, `DispatchLoop` | the per-guild command scheduler and the shard worker that feeds it |
| `PlayerActor`, `CommandLoop`, `CommandWorker` | the player's gate and window, command delivery as a step machine, `process_command` |
| `MediaRoute`, `MediaDelivery` | the multi-request route of media commands, alone and begun by the dispatcher's tasks |
| `MediaCapacity`, `MediaLeases`, `MediaStore` | the byte ledger, the lease table, and both under every interleaving of downloads and deletions |
| `MediaDownload`, `MediaTasks` | the download and discard code on its own ledger and disk, and among all other tasks as a run of `MediaStore` |
| `TrackLifecycle` | the atomic end-of-track protocol |
| `Base64Url`, `HexNumber`, `ComponentId` | component ids, down to digits and bits (section 5 of RFC 4648; the tag is a truncated HMAC, section 5 of RFC 2104, of which only functionality is used) |
| `Options`, `Runs`, `Sums`, `Sequences` | optional values, runs of step machines, totals over maps, slices of sequences |

## What turned out not to hold

Each of these is shown by a concrete run, and stands next to the exact condition under which
the code keeps the promise.

- `lease.rs` says that leasing and deleting are serialized and that this closes the
  check-then-delete race. The object is inspected before the table is locked, so a lease can
  be granted for a file already deleted (`MediaStore.LeaseOfADeletedFile`), or over a renamed
  file that its download still takes away. A lease keeps a file at its path for as long as it
  lives if and only if, when it was registered, the file was there and already taken over
  from its download (`MediaStore.LeaseProtectsIffRegisteredInTime`).
- "Applied" on record means applied; a rejection on record does not mean the opposite. A run
  that dies after the player took its command, redelivered after the deadline, records a
  rejection (`CommandLoop.RejectionMayHideAChange`). For a command that changed the player and
  may still be delivered, a final result can end up denying the change if and only if "applied"
  is not on record yet (`CommandLoop.RejectionMayHideAChangeIff`). Also, an apply whose idle
  timer cannot be set changes the player and answers with an error
  (`PlayerActor.ReportsAreHonest`).
- A worker failure may be announced after the end it explains
  (`TrackLifecycle.FailureMayFollowTheEnd`); the two never contradict each other. After an
  end, a failure is still announced in some continuation if and only if the call that won the
  outcome is about to send its message, or is about to look and the track has not been
  replaced or stopped, for then it never becomes current again
  (`TrackLifecycle.FailureIsStillToComeIff`, `TrackLifecycle.PastIsForGood`). So an end
  callback that starts after the report has returned never precedes it
  (`TrackLifecycle.ReturnedReportsComeFirst`).
- Component ids are read more loosely than they are printed: capital digits, leading zeros and
  a plus sign are accepted under a valid tag (`ComponentId.LooseSpellingIsAccepted`). An
  accepted id is the encoder's own exactly when both numbers are spelled as printed.

A note on media commands. The program queues one envelope's batch at most once
(`MediaDelivery.DispatchedMediaQueuesOnce`), because the dispatcher never lets two executions
of it overlap. `execute` alone would not see to that: its last look accepts any revision, and
two executions that did overlap could queue the batch twice (`MediaRoute.OverlapQueuesTwice`,
and `MediaRoute.SecondBatchIff` for exactly when).

## Model

| member | source | states |
|---|---|---|
| Signal.ValidateInput | crates/pepeaudio-audio/src/signal.rs:15-29 | accepts exactly the blocks of finite samples within the input limit, and otherwise names the first offender |
| Signal.ValidateStereoBlocks | crates/pepeaudio-audio/src/signal.rs:31-45 | equal, even lengths and accepted input, with the error of the first violated rule, and of the first rejected sample |
| Signal.ClipIsNearest | crates/pepeaudio-audio/src/signal.rs:54-57 | the clipped value is the admissible output nearest to the unclipped one |
| Signal.GuardsAre | crates/pepeaudio-audio/src/signal.rs:15-57 | the guards in figures, and what a refused sample is reported as |
| Ramp.RampEmits | crates/pepeaudio-audio/src/transition.rs:42-67 | a ramp over n >= 2 frames emits n evenly spaced values from old to target, then stays; n <= 1 jumps |
| Ramp.RampStaysInside | crates/pepeaudio-audio/src/transition.rs:42-67 | no emitted value leaves the range of old value and target |
| Ramp.SettledStays | crates/pepeaudio-audio/src/gain.rs:115-119 | a settled ramp is at its target for ever |
| Ramp.Ramp.SetTarget | crates/pepeaudio-audio/src/transition.rs:42-54 | re-aims from the value reached so far |
| Ramp.Ramp.NextValue | crates/pepeaudio-audio/src/gain.rs:72-83 | returns the present value and advances one frame, landing on the target exactly |
| Ramp.Ramp.ApplyInterleaved | crates/pepeaudio-audio/src/gain.rs:89-108 | every channel of frame f is scaled by the f-th gain of the ramp and clipped; a ragged block is refused unchanged |
| Ramp.FrameOfIsDivision | crates/pepeaudio-audio/src/gain.rs:89-108 | the frame counted by the loop is the sample index divided by the channel count |
| Fir.ConvolutionIsCausal | crates/pepeaudio-audio/src/fir.rs:56-70 | later input never changes an output |
| Fir.ImpulseResponse | crates/pepeaudio-audio/src/fir.rs:56-70 | a unit sample is answered by the impulse itself |
| Fir.ConvolutionIsBounded | crates/pepeaudio-audio/src/fir.rs:98-123 | a validated impulse and validated input bound every output by 4 * 256 |
| Fir.GainIsReached | crates/pepeaudio-audio/src/fir.rs:98-123 | some input of size one brings the output to the absolute gain, so the guarded gain is the exact one |
| Fir.ValidateImpulse | crates/pepeaudio-audio/src/fir.rs:98-123 | accepts exactly the impulses within the coefficient and absolute-gain guards, and names the first fault |
| Fir.DirectFir.ProcessSampleValidated | crates/pepeaudio-audio/src/fir.rs:56-70 | the circular buffer yields the convolution of the whole input history |
| Fir.DirectFir.ProcessBlock | crates/pepeaudio-audio/src/fir.rs:74-86 | the same for any split into blocks; a rejected block changes nothing |
| Fir.DirectFir.Reset | crates/pepeaudio-audio/src/fir.rs:88-91 | back to the state of a new filter |
| AudioProcessor.BlocksAreTransparent | crates/pepeaudio-audio/src/processor.rs:140-199 | processing a list of blocks is processing their concatenation: same outputs, same final state |
| AudioProcessor.SplitsAgree | crates/pepeaudio-audio/src/processor.rs:140-199 | two ways of cutting one stream into blocks cannot be told apart |
| AudioProcessor.RunInClosedForm | crates/pepeaudio-audio/src/processor.rs:140-199 | where the per-frame machine stands after n frames, fade ended or not |
| AudioProcessor.CommitCatchesUp | crates/pepeaudio-audio/src/processor.rs:140-199 | swapping at the end of the block reaches the state that swapping at the frame would |
| AudioProcessor.LoopMatchesReference | crates/pepeaudio-audio/src/processor.rs:140-199 | what the loop mixes with a fade running past its end blends to the reference output |
| AudioProcessor.DryMatchesReference | crates/pepeaudio-audio/src/processor.rs:201-206 | the fully-dry fast path gives the reference output |
| AudioProcessor.OutputIs | crates/pepeaudio-audio/src/processor.rs:140-199 | what comes out at a frame, said of the stream alone: input and renderers under the curve's weights at the mix reached by then, times the gain reached by then, clipped; in the middle of any ramp and fade |
| AudioProcessor.WetMatchesReference | crates/pepeaudio-audio/src/processor.rs:140-199 | a settled, fully wet processor without a replacement scales and clips what it renders |
| AudioProcessor.OutputsAdd | crates/pepeaudio-audio/src/processor.rs:140-199 | below the ceiling the processor is linear: outputs add where inputs and renderer signals add |
| AudioProcessor.RendererHearsAll | crates/pepeaudio-audio/src/processor.rs:140-199 | a renderer that answers from its whole history goes on doing so across every block |
| AudioProcessor.PresetSwitchCompletes | crates/pepeaudio-audio/src/processor.rs:87-110 | after the fade's frames the replacement alone is active, with the history it built meanwhile |
| AudioProcessor.SwitchIsHeard | crates/pepeaudio-audio/src/processor.rs:87-110 | frame k of a switch over n frames is heard under the curve's weights at k of n - 1, and later frames are the replacement's |
| AudioProcessor.OutputsAreBounded | crates/pepeaudio-audio/src/processor.rs:140-199 | no output exceeds the ceiling, whatever the renderer does |
| AudioProcessor.AudioProcessor.InstallPreparedRenderer | crates/pepeaudio-audio/src/processor.rs:87-110 | the refusals, the immediate replacement and the started fade |
| AudioProcessor.AudioProcessor.SetOrbitPosition | crates/pepeaudio-audio/src/processor.rs:127-134 | re-routes active and pending renderer without touching their history |
| AudioProcessor.AudioProcessor.ProcessBlock | crates/pepeaudio-audio/src/processor.rs:140-199 | the block loop with its scratch arrays, deferred swap and dry fast path is the per-frame machine; a rejected block changes nothing and is rejected for the first rule it violates |
| AudioProcessor.AudioProcessor.Reset | crates/pepeaudio-audio/src/processor.rs:212-224 | histories cleared, a pending replacement taken over, ramps settled |
| AudioProcessor.ResetIsHeard | crates/pepeaudio-audio/src/processor.rs:212-224 | after a reset the survivor is heard from a cleared state, at the mix and gain aimed at |
| PcmPump.Validate | crates/pepeaudio-pipeline/src/config.rs:34-61 | accepts exactly the configurations with every bound in range and whole-frame buffers; these give a non-empty block that fits its buffer and the machine word |
| PcmPump.OwedAppend | crates/pepeaudio-pipeline/src/pcm.rs:118-210 | what is owed for a stream is owed piece by piece, for every cut into whole frames |
| PcmPump.PlayableAppend | crates/pepeaudio-pipeline/src/pcm.rs:118-210 | a concatenation of whole-frame pieces is playable exactly when both pieces are |
| PcmPump.OwedAt | crates/pepeaudio-pipeline/src/pcm.rs:212-223 | eight bytes are a left and a right sample, and the eight owed for them are the processed left and right sample in the same places |
| PcmPump.WriteProcessed | crates/pepeaudio-pipeline/src/pcm.rs:225-257 | success means every byte was written in order; failure leaves a prefix |
| PcmPump.ProcessAndWrite | crates/pepeaudio-pipeline/src/pcm.rs:118-210 | one block: on success exactly the encoding of its processed frames is appended |
| PcmPump.Absorb | crates/pepeaudio-pipeline/src/pcm.rs:118-210 | the carry stays below one frame, so the next read slice is never empty, and no byte is lost or moved |
| PcmPump.PumpPcm | crates/pepeaudio-pipeline/src/pcm.rs:118-210 | for every fragmentation into reads: natural end exactly for whole frames, everything owed written and both ends closed; otherwise the partial-frame error after everything before it; a failed call is never passed over, and every other way of ending has its cause |
| GuildPresence.SweepIsAlwaysDesired | crates/pepeaudio-runtime/src/guild_presence.rs:154-239 | the in-flight heartbeat sweep holds only desired guilds, in every interleaving |
| GuildPresence.RefreshesAreDesired | crates/pepeaudio-runtime/src/guild_presence.rs:241-271 | every refresh is for a desired guild, or the one whose withdrawal is waiting for the sweep to stop |
| GuildPresence.AbsentOkIsFinal | crates/pepeaudio-runtime/src/guild_presence.rs:154-239 | after Absent(g) answered Ok no lease on g is held in any later state until Present(g) |
| GuildPresence.ClearingOnlyLosesTheLease | crates/pepeaudio-runtime/src/guild_presence.rs:273-282 | even if the clear fails, the lease can then only be lost |
| GuildPresence.SweepRepairs | crates/pepeaudio-runtime/src/guild_presence.rs:241-271 | a fault-free sweep leaves every guild it set out with leased |
| GuildPresence.PresenceActor.Present | crates/pepeaudio-runtime/src/guild_presence.rs:154-239 | desired ownership is recorded even when the refresh fails; Ok means the lease was written, and a reliable store gives Ok |
| GuildPresence.PresenceActor.Absent | crates/pepeaudio-runtime/src/guild_presence.rs:154-239 | the guild is forgotten before its lease is cleared; Ok means no lease, and a reliable store gives Ok |
| GuildPresence.PresenceActor.Shutdown | crates/pepeaudio-runtime/src/guild_presence.rs:284-316 | there is a moment at which no sweep runs and clearing has not begun, and from it on leases are only lost; a reliable store leaves none on a desired guild |
| GuildLifecycle.RedesiredIsConsistent | crates/pepeaudio-bot/src/guild_lifecycle_actor.rs:70-86 | advertised guilds stay exactly the union of owned sets, disjoint from pending absences, no shard maps to nothing |
| GuildLifecycle.RoundLowersRank | crates/pepeaudio-bot/src/guild_lifecycle_actor.rs:199-254 | each successful call lowers the remaining work by one and nothing raises it |
| GuildLifecycle.PerfectRoundSettles | crates/pepeaudio-bot/src/guild_lifecycle_actor.rs:199-254 | a round without failures leaves no affected guild pending |
| GuildLifecycle.RoundRestoresOrder | crates/pepeaudio-bot/src/guild_lifecycle_actor.rs:199-254 | whatever fails in a round, both actors are in order after it |
| GuildLifecycle.EveryRunKeepsOrder | crates/pepeaudio-bot/src/guild_lifecycle_actor.rs:109-166 | at every command boundary of every run: refreshed guilds are desired and have had a successful invalidation since their ownership began, and advertised guilds are being refreshed while the presence actor lives |
| GuildLifecycle.HeartbeatServesOwners | crates/pepeaudio-runtime/src/guild_presence.rs:241-271 | the running sweep serves only guilds some shard owns and whose snapshot was invalidated |
| GuildLifecycle.PerfectTickConverges | crates/pepeaudio-bot/src/guild_lifecycle_actor.rs:92-100 | one fault-free tick makes the refreshed guilds the union of owned sets |
| GuildLifecycle.LifecycleState.ReconcileShard | crates/pepeaudio-bot/src/guild_lifecycle_actor.rs:34-49 | the new desired state, and exactly the guilds that lost their last shard reported as removed, each once |
| GuildLifecycle.LifecycleState.Present | crates/pepeaudio-bot/src/guild_lifecycle_actor.rs:51-56 | one more owned guild, the rest as it was |
| GuildLifecycle.LifecycleState.Absent | crates/pepeaudio-bot/src/guild_lifecycle_actor.rs:58-68 | reports no longer owned exactly when the last owner went |
| GuildLifecycle.LifecycleState.ApplyDesiredState | crates/pepeaudio-bot/src/guild_lifecycle_actor.rs:70-86 | the loop over affected guilds, in any order, derives the desired state |
| GuildLifecycle.AbsentLeavesOthers | crates/pepeaudio-bot/src/guild_lifecycle_actor.rs:58-68 | a guild stays desired exactly as long as another shard owns it |
| GuildLifecycle.LifecycleActor.InvalidateAll | crates/pepeaudio-bot/src/guild_lifecycle_actor.rs:256-278 | batch by batch, each guild is called exactly as often as listed, and exactly the calls logged as successful are reported, in that order |
| GuildLifecycle.LifecycleActor.InvalidateDue | crates/pepeaudio-bot/src/guild_lifecycle_actor.rs:206-219 | every due guild is called once, and the guilds confirmed by the log of calls grow by exactly the successes |
| GuildLifecycle.LifecycleActor.ReconcileRound | crates/pepeaudio-bot/src/guild_lifecycle_actor.rs:199-254 | returns exactly the affected guilds still pending; each guild awaiting invalidation, presence or withdrawal is called once and advances exactly on a logged success; with reliable stores every due call succeeds |
| GuildLifecycle.LifecycleActor.ReconcileWithRetries | crates/pepeaudio-bot/src/guild_lifecycle_actor.rs:168-184 | Ok exactly when no affected guild is pending, after at most three rounds |
| GuildLifecycle.LifecycleActor.HandleReconcileShard | crates/pepeaudio-bot/src/guild_lifecycle_actor.rs:109-166 | a READY command, start to finish, is an event of the composed run |
| GuildLifecycle.LifecycleActor.HandleAbsent | crates/pepeaudio-bot/src/guild_lifecycle_actor.rs:109-166 | a removal command is an event of the composed run, with the right answer |
| GuildLifecycle.LifecycleActor.HandleTick | crates/pepeaudio-bot/src/guild_lifecycle_actor.rs:109-166 | the background tick retries everything pending; with reliable stores and a running presence actor it ends with the refreshed guilds exactly the owned ones |
| GuildDispatcher.SameGuildRunsInOrder | crates/pepeaudio-runtime/src/guild_command_dispatcher.rs:59-160 | in every run, processed then running then queued is the delivered sequence of a guild, and at most one task per guild exists |
| GuildDispatcher.EventKeeps | crates/pepeaudio-runtime/src/guild_command_dispatcher.rs:59-160 | every operation keeps: ready lists each waiting guild once, buffered counts queued and running work, and no guild waits while a slot is free |
| GuildDispatcher.RetiredKeeps | crates/pepeaudio-runtime/src/guild_command_dispatcher.rs:125-160 | finishing a task subtracts exactly its batch; the saturating subtraction never clips |
| GuildDispatcher.IdleMeansDone | crates/pepeaudio-runtime/src/guild_command_dispatcher.rs:73-110 | when nothing runs everything delivered has been processed |
| GuildDispatcher.FullMeansActive | crates/pepeaudio-runtime/src/guild_command_dispatcher.rs:162-172 | a full dispatcher has a task running |
| GuildDispatcher.OvertakingIsBounded | crates/pepeaudio-runtime/src/guild_command_dispatcher.rs:73-110 | each completion moves a waiting guild up by one, nobody passes it, and position k starts with completion k + 1 |
| GuildDispatcher.Dispatcher.Enqueue | crates/pepeaudio-runtime/src/guild_command_dispatcher.rs:59-71 | the loop is the delivery of the batch, in order |
| GuildDispatcher.Dispatcher.SpawnReady | crates/pepeaudio-runtime/src/guild_command_dispatcher.rs:73-110 | free slots go to the guilds that waited longest, each with its whole queue |
| GuildDispatcher.Dispatcher.Finish | crates/pepeaudio-runtime/src/guild_command_dispatcher.rs:125-160 | the guild is freed and waits again behind the others if more arrived |
| DispatchLoop.ReachableIsInOrder | crates/pepeaudio-runtime/src/command_dispatch.rs:11-116 | whatever the worker does, each guild's commands run in delivery order |
| DispatchLoop.BufferLimitIs | crates/pepeaudio-runtime/src/command_dispatch.rs:25-28 | room for two batches, as far as the word goes, and for every guild at once |
| DispatchLoop.ShardWorker.WaitForCapacity | crates/pepeaudio-runtime/src/command_dispatch.rs:125-141 | waiting for room ends, and never for lack of a task to wait for |
| DispatchLoop.ShardWorker.WaitForRetry | crates/pepeaudio-runtime/src/command_dispatch.rs:143-171 | the delay joins tasks and cannot be stuck |
| DispatchLoop.ShardWorker.WaitForCompletion | crates/pepeaudio-runtime/src/command_dispatch.rs:173-199 | stuck only without a running task; otherwise progress, shutdown or a panic |
| DispatchLoop.ShardWorker.Round | crates/pepeaudio-runtime/src/command_dispatch.rs:36-116 | a round claims for the room there is, then reads for what is left of it; in a calm one neither is left out, and every waiting entry comes nearer |
| DispatchLoop.ShardWorker.RunShard | crates/pepeaudio-runtime/src/command_dispatch.rs:11-116 | never stuck, never over the buffer limit, stopping only when asked or after a panic; everything the logged calls brought is delivered once and in order; while all is calm no new entry is skipped, and in enough rounds every waiting one is delivered |
| PlayerActor.ApplyKeepsSound | crates/pepeaudio-player/src/actor/commands.rs:16-29 | every logged change passed guild, deadline and revision; the window is the last 1024 successful keys |
| PlayerActor.ApplicationIs | crates/pepeaudio-player/src/actor/commands.rs:16-29 | how every application comes out: replayed, refused for the first rule violated, or taken, with the revision, the log and the key that follow |
| PlayerActor.ReplayIff | crates/pepeaudio-player/src/actor/commands.rs:312-317 | a success is answered again without effect exactly while fewer than 1024 successes have followed it |
| PlayerActor.OneChangePerRevision | crates/pepeaudio-core/src/command_envelope.rs:55-80 | of all envelopes expecting one revision at most one ever changes the player, once |
| PlayerActor.SuccessIsDone | crates/pepeaudio-player/src/actor/commands.rs:16-29 | success is only answered for a key that was applied |
| PlayerActor.RememberSlides | crates/pepeaudio-player/src/actor/commands.rs:312-317 | the bounded queue is the last 1024 keys, and equal keys are more than 1024 successes apart |
| PlayerActor.ReportsAreHonest | crates/pepeaudio-runtime/src/command_outcome.rs:7-54 | a retryable outcome changed nothing, Applied names an applied key, and when exactly a rejection follows a change |
| PlayerActor.CodesTell | crates/pepeaudio-runtime/src/command_outcome.rs:26-78 | which errors leave a command to be retried, and of which errors each reported code tells |
| PlayerActor.ReportIs | crates/pepeaudio-runtime/src/command_loop.rs:89-108 | what a run reports of each kind of answer |
| CommandLoop.CommandsAreSafe | crates/pepeaudio-runtime/src/command_loop.rs:15-124 | over any run of crashes, lost writes, expiries and redeliveries: at most one change per expected revision, Applied only for applied keys, replayed only for settled keys, acknowledged only after a final result |
| CommandLoop.EngagedRunsPassed | crates/pepeaudio-runtime/src/command_loop.rs:15-92 | whoever asks the player found its command pending, looked in time, was allowed, and took the key when nobody held it |
| CommandLoop.OneAtATimePerKey | crates/pepeaudio-runtime/src/command_loop.rs:70-124 | while its lease does not expire, at most one run is engaged on a key and at most one request for it is on its way, in every interleaving |
| CommandLoop.CompletedKeyStaysClosed | crates/pepeaudio-runtime/src/command_loop.rs:78-88 | and none at all once the key is completed |
| CommandLoop.ReadyCanSettle | crates/pepeaudio-runtime/src/command_loop.rs:15-124 | a ready entry can always come to its end: the player's answer as the final result, the key completed, the entry acknowledged; or, when it may be retried, everything as it was and the key free |
| CommandLoop.FailedCallsEnd | crates/pepeaudio-runtime/src/command_loop.rs:15-181 | a store call that is not answered ends the run, whether or not it took effect |
| CommandLoop.LooksTell | crates/pepeaudio-runtime/src/command_loop.rs:27-68 | where each outcome of the looks before a claim leads |
| CommandLoop.ClaimTells | crates/pepeaudio-runtime/src/command_loop.rs:70-119 | a claim takes a free key and a release frees only one's own |
| CommandLoop.OthersTouchStore | crates/pepeaudio-storage/src/valkey/command_admission.rs:30-110 | what expiries and submissions do to the store, one by one |
| CommandLoop.EventKeeps | crates/pepeaudio-runtime/src/command_loop.rs:15-190 | the invariant behind it, kept by every step |
| CommandLoop.CompleteKeepsStore | crates/pepeaudio-storage/src/valkey/command_results.rs:26-46 | without the caller's lease the conditional completion changes nothing; reported as stored or unchanged, which is exactly with the lease and no other result on record, it leaves this very result behind and the key completed |
| CommandLoop.WriteIs | crates/pepeaudio-storage/src/valkey/command_results.rs:26-46 | a final result is written once; the same one again is unchanged, another one a conflict |
| CommandLoop.OnlyWritesSettle | crates/pepeaudio-runtime/src/command_loop.rs:135-190 | results become final and entries acknowledged only by those calls, so retryable ends leave both; final results are never overwritten |
| CommandLoop.LaterDeliveriesOnlyRead | crates/pepeaudio-runtime/src/command_loop.rs:27-52 | once a command has its final result, every later delivery only reads and acknowledges, whatever earlier runs still do, and the result stands, for as long as it does not expire |
| CommandLoop.LaterDeliveriesNeverExecute | crates/pepeaudio-runtime/src/command_loop.rs:27-52 | even if the result expires, a later delivery at most records that it did; only a new submission lets the command be executed again |
| CommandLoop.SettledIsNeverExecuted | crates/pepeaudio-runtime/src/command_loop.rs:27-52 | a settled command with no run under way is never taken by the player again while its result is kept |
| CommandLoop.RejectionMayHideAChange | crates/pepeaudio-runtime/src/command_loop.rs:54-63 | a run that ends with a rejection on record for a change that was made |
| CommandLoop.RejectionMayHideAChangeIff | crates/pepeaudio-runtime/src/command_loop.rs:27-63 | a change made by a command that may still be delivered can end up beside a final result that denies it exactly if "applied" is not on record |
| CommandWorker.Cluster.ProcessCommand | crates/pepeaudio-runtime/src/command_loop.rs:15-124 | the code, with everyone else free to act before each call, is a run of the machine, and ends in its final state unless the player never answers |
| CommandWorker.Cluster.CompleteWithResultAndAcknowledge | crates/pepeaudio-runtime/src/command_loop.rs:135-161 | goes on to acknowledge only if the write is answered with this result on record, and ends there otherwise, also when the answer is lost |
| CommandWorker.Cluster.StoreResultAndAcknowledge | crates/pepeaudio-runtime/src/command_loop.rs:163-181 | likewise without a lease |
| MediaRoute.OneAtATimeQueuesOnce | crates/pepeaudio-bot/src/dashboard_command_executor.rs:40-136 | executions that do not overlap queue one envelope's batch at most once, whatever dies or changes in between |
| MediaRoute.CurrentLooksQueueOnce | crates/pepeaudio-bot/src/dashboard_command_executor.rs:77-136 | so do overlapping ones if each last look finds the revision the execution had made sure of |
| MediaRoute.UndisturbedExecutionQueues | crates/pepeaudio-bot/src/dashboard_command_executor.rs:40-136 | left alone, an execution from the expected revision connects if it must and queues its batch |
| MediaRoute.TakeIs | crates/pepeaudio-player/src/actor/queue.rs:115-178 | what the player grants a connection and a batch for, and that anything else changes nothing |
| MediaRoute.ProceedIs | crates/pepeaudio-bot/src/dashboard_command_executor.rs:77-136 | which looks let an execution go on, and to what |
| MediaRoute.SuccessMeansQueued | crates/pepeaudio-bot/src/dashboard_command_executor.rs:112-136 | an execution told that its batch was taken has queued it, in every run, overlapping or not |
| MediaDelivery.DispatchedMediaQueuesOnce | crates/pepeaudio-runtime/src/guild_command_dispatcher.rs:73-110 | executions begun by the dispatcher's tasks never overlap, so over any redeliveries, deaths and outside changes one envelope connects the player at most once and queues its batch at most once |
| MediaDelivery.EventKeeps | crates/pepeaudio-runtime/src/guild_command_dispatcher.rs:59-160 | every step of dispatcher, executions and player keeps this; an execution begins only when none is alive |
| MediaDelivery.DispatchedMediaGetsThrough | crates/pepeaudio-runtime/src/guild_command_dispatcher.rs:59-160 | an envelope that arrives while the player is as it expects can get all the way through: connected if need be, queued, and its task done |
| MediaRoute.SecondBatchIff | crates/pepeaudio-bot/src/dashboard_command_executor.rs:77-136 | with overlap, a second batch can follow the first exactly if an execution has its last look to come, or found or sent the revision at hand, with a connection within reach and a revision left |
| MediaRoute.OverlapQueuesTwice | crates/pepeaudio-bot/src/dashboard_command_executor.rs:77-136 | a run in which two overlapping executions queue the batch twice |
| MediaCapacity.ReserveKeeps | crates/pepeaudio-media/src/capacity.rs:104-119 | charge, limits and entry cap hold after a reservation |
| MediaCapacity.RoomIff | crates/pepeaudio-media/src/capacity.rs:104-168 | when a reservation, its growth and its commit succeed, in sums of files, reservations and lost bytes |
| MediaCapacity.EnsureKeeps | crates/pepeaudio-media/src/capacity.rs:137-149 | growth keeps the balance; on an inactive reservation the bytes are lost for good |
| MediaCapacity.CommitIsPossible | crates/pepeaudio-media/src/capacity.rs:151-168 | after the commit's own checks its arithmetic cannot fail or clip, and the balance holds |
| MediaCapacity.RetainKeeps | crates/pepeaudio-media/src/capacity.rs:170-187 | a file that stayed keeps its whole charge, collision or not |
| MediaCapacity.DropKeeps | crates/pepeaudio-media/src/capacity.rs:191-198 | a dropped reservation returns exactly its charge |
| MediaCapacity.RemovedKeeps | crates/pepeaudio-media/src/capacity.rs:121-127 | a confirmed removal refunds exactly the recorded bytes, and a second one nothing |
| MediaCapacity.ReserveThenDrop | crates/pepeaudio-media/src/capacity.rs:104-198 | a reservation that comes to nothing, grown or not, leaves no trace |
| MediaCapacity.CommitThenRemoved | crates/pepeaudio-media/src/capacity.rs:104-168 | so does a file's whole life |
| MediaCapacity.Initialize | crates/pepeaudio-media/src/capacity.rs:35-79 | starting over a root succeeds exactly when its files fit both limits |
| MediaCapacity.CapacityTracker.GetUsage | crates/pepeaudio-media/src/capacity.rs:89-102 | the reported reserved bytes are live reservations and lost bytes; nothing is cut off |
| MediaCapacity.CapacityTracker.TryReserve | crates/pepeaudio-media/src/capacity.rs:104-119 | succeeds exactly when bytes and entries fit |
| MediaCapacity.CapacityReservation.TryCommit | crates/pepeaudio-media/src/capacity.rs:151-168 | succeeds exactly for an active reservation, a positive size within it and a new path |
| MediaCapacity.CapacityReservation.RetainFailedFile | crates/pepeaudio-media/src/capacity.rs:170-187 | the new ledger in both branches |
| MediaCapacity.CapacityReservation.Release | crates/pepeaudio-media/src/capacity.rs:191-198 | what dropping does, and that it does it once |
| MediaLeases.TokenIsCounted | crates/pepeaudio-media/src/lease.rs:243-257 | a dropped token always finds its path leased, never being deleted or missing |
| MediaLeases.PermitIsAlone | crates/pepeaudio-media/src/lease.rs:273-281 | under a live permit its path is marked, has no token and no other permit |
| MediaLeases.AcquireKeeps | crates/pepeaudio-media/src/lease.rs:108-122 | the table stays exact: Leased(n) for n live tokens, Deleting for one live permit |
| MediaLeases.DropTokenKeeps | crates/pepeaudio-media/src/lease.rs:243-257 | and so it does when tokens go |
| MediaLeases.WhoIsRefused | crates/pepeaudio-media/src/lease.rs:163-174 | deletion is refused exactly while a token or permit lives; a lease only under a permit or a full count |
| MediaLeases.AcquireThenDrop | crates/pepeaudio-media/src/lease.rs:108-257 | taking and dropping a lease changes nothing |
| MediaLeases.LeaseRegistry.AcquireLease | crates/pepeaudio-media/src/lease.rs:108-129 | the three branches, with the token that results |
| MediaLeases.LeaseRegistry.TryBeginDeletion | crates/pepeaudio-media/src/lease.rs:163-174 | a permit exactly when nobody holds the path |
| MediaLeases.LeaseToken.Release | crates/pepeaudio-media/src/lease.rs:243-257 | counts down, and removes the entry with the last token |
| MediaStore.DiskWithinQuota | crates/pepeaudio-media/src/store.rs:53-199 | however everything interleaves, files under the root take no more bytes than are charged, and the charge no more than the maximum; ledger balanced, table exact |
| MediaStore.EventKeeps | crates/pepeaudio-media/src/store.rs:53-199 | the joint invariant of ledger, table, files, downloads and deletions, kept by every step |
| MediaStore.ReservedThenDropped | crates/pepeaudio-media/src/capacity.rs:104-198 | a reservation dropped at once leaves the ledger as it was |
| MediaStore.DownloadMovesIn | crates/pepeaudio-media/src/store.rs:53-171 | a download begins with an empty file nobody can lease; once renamed it is an object |
| MediaStore.RemovedIsUnleased | crates/pepeaudio-media/src/janitor/scan.rs:183-240 | what a permit removes has no lease on it |
| MediaStore.LeasedFileStays | crates/pepeaudio-media/src/lease.rs:88-130 | a file leased while present stays while the token lives, in every continuation |
| MediaStore.LeaseProtectsIffRegisteredInTime | crates/pepeaudio-media/src/lease.rs:88-130 | a lease keeps a file at its path in every continuation if and only if at registration the file was there and taken over from its download |
| MediaStore.LeaseOfADeletedFile | crates/pepeaudio-media/src/lease.rs:88-130 | a run that ends with a live lease on a deleted file |
| MediaDownload.PartialDownload.Commit | crates/pepeaudio-media/src/store.rs:154-171 | on success the file is at its final path and booked at the given size, within its charge exactly if that size was not understated; otherwise the reservation is still whole; on a disk that works it succeeds exactly for a positive size within the reservation |
| MediaDownload.PartialDownload.Release | crates/pepeaudio-media/src/store.rs:184-199 | the reservation never outlives the download; a file left behind is recorded at no less than its size |
| MediaDownload.PartialDownload.Cleanup | crates/pepeaudio-media/src/store.rs:173-180 | success leaves neither file of an uncommitted download, no other file is touched, nor a committed one; on a disk that works it succeeds |
| MediaDownload.DiscardObject | crates/pepeaudio-media/src/store.rs:96-129 | a missing and a leased object are refused as such; success removes the file and refunds it; every failure changes nothing |
| MediaTasks.MediaRoot.Commit | crates/pepeaudio-media/src/store.rs:154-171 | among all other tasks: it succeeds exactly if the file was renamed and not empty; then the object is booked at what was written and nothing is held, otherwise the whole reservation is |
| MediaTasks.MediaRoot.Release | crates/pepeaudio-media/src/store.rs:184-199 | among all other tasks: the reservation goes with the download, and a file left behind is charged at no less than its size |
| MediaTasks.MediaRoot.Download | crates/pepeaudio-media/src/store.rs:53-199 | a whole download is a run of the machine; its reservation and its download are gone at the end; it books the object at the size of all its chunks, unless there was no room, the file was taken away, there was nothing to write or a file operation failed |
| MediaTasks.MediaRoot.Discard | crates/pepeaudio-media/src/store.rs:96-129 | a discard is a run of the machine; a confirmed one leaves neither file nor charge, an unconfirmed one has its cause, and the permit goes back in any case |
| MediaTasks.MediaRoot.Lease | crates/pepeaudio-media/src/lease.rs:88-130 | a lease is a run of the machine, refused for want of an object exactly where none is, and protects exactly if the object was booked and there when registered |
| MediaTasks.MediaRoot.WithinQuota | crates/pepeaudio-media/src/store.rs:53-199 | at every point of these tasks the disk is within the charge and the charge within the maximum |
| TrackLifecycle.EveryInterleavingIsConsistent | crates/pepeaudio-pipeline/src/track.rs:67-137 | at most one TrackEnded and one WorkerFailed; every reason names the first outcome, and where the owner never stopped the track they determine each other; the outcome decided once, and the end announced exactly if claimed once calls return |
| TrackLifecycle.EverythingHasItsCause | crates/pepeaudio-pipeline/src/track.rs:67-137 | in every interleaving, what is written, sent or cancelled goes back to a call of the kind that does so |
| TrackLifecycle.OutcomeIsDecidedOnce | crates/pepeaudio-pipeline/src/track.rs:67-106 | a decided outcome can only become Manual, and Manual stays |
| TrackLifecycle.StoppedTracksStaySilent | crates/pepeaudio-pipeline/src/track.rs:108-133 | an end callback starting after the stop sends nothing and has cancelled when it returns |
| TrackLifecycle.PastIsForGood | crates/pepeaudio-pipeline/src/playback/prepare.rs:131-158 | generations being handed out in order and stored once, a track replaced, stopped or given up never becomes current again |
| TrackLifecycle.GenerationsTakeTurns | crates/pepeaudio-pipeline/src/playback/prepare.rs:131-158 | when a track becomes current, and what retires it |
| TrackLifecycle.FailureIsStillToComeIff | crates/pepeaudio-pipeline/src/track.rs:82-95 | a failure not yet announced may still be exactly if its message is the next step, or the track's turn is not over and the outcome is open or was won by a call that has not looked yet; after an announced end the outcome is not open |
| TrackLifecycle.ReturnedReportsComeFirst | crates/pepeaudio-pipeline/src/track.rs:82-133 | an end announced once every report has returned comes after the message of the failure |
| TrackLifecycle.FailureMayFollowTheEnd | crates/pepeaudio-pipeline/src/track.rs:82-95 | an interleaving that announces the failure after the end |
| TrackLifecycle.Lifecycle.MarkManual | crates/pepeaudio-pipeline/src/track.rs:73-76 | Manual and cancelled on return, whatever others do meanwhile |
| TrackLifecycle.Lifecycle.MarkNatural | crates/pepeaudio-pipeline/src/track.rs:67-71 | the outcome becomes Natural exactly if it was open at the write, and is decided on return |
| TrackLifecycle.Lifecycle.SongbirdError | crates/pepeaudio-pipeline/src/track.rs:97-106 | the error of a track that is not current changes nothing; otherwise it is written exactly on an open outcome |
| TrackLifecycle.Lifecycle.ReportWorkerFailure | crates/pepeaudio-pipeline/src/track.rs:82-95 | the failure is sent exactly if the outcome was open at the write and the track current at the look; the outcome is decided on return, and if this report won, no failure is on its way any more |
| TrackLifecycle.Lifecycle.SongbirdEnd | crates/pepeaudio-pipeline/src/track.rs:108-133 | cancelled on return; it announces only for a current track not stopped before it began, and for a current one the end is claimed on return unless the track was stopped |
| Base64Url.DecodeInvertsEncode | crates/pepeaudio-bot/src/component_id.rs:81-95 | base64url decodes what it encodes, for any number of bytes |
| Base64Url.EncodeInvertsDecode | crates/pepeaudio-bot/src/component_id.rs:102-112 | decoding is strict: each accepted text is the one encoding of its bytes |
| Base64Url.GroupsAreBigEndian | crates/pepeaudio-bot/src/component_id.rs:81-95 | four symbols spell three bytes high bits first, and the two kinds of short end (section 4 of RFC 4648) |
| Base64Url.SymbolIsAlphabet | crates/pepeaudio-bot/src/component_id.rs:81-95 | the symbols are the URL-safe alphabet in its order |
| HexNumber.ParseInvertsPrint | crates/pepeaudio-bot/src/component_id.rs:81-95 | every 64-bit number is read back as printed |
| HexNumber.DigitsArePositional | crates/pepeaudio-bot/src/component_id.rs:129-132 | a number is its front times a power of sixteen plus its end |
| HexNumber.OnePlusIsReadOver | crates/pepeaudio-bot/src/component_id.rs:129-132 | one plus in front is read over; nothing, and a plus alone, is no number |
| HexNumber.PrintInvertsParseIff | crates/pepeaudio-bot/src/component_id.rs:129-132 | what is read prints back exactly when it was canonical |
| ComponentId.EncodeIsShort | crates/pepeaudio-bot/src/component_id.rs:81-95 | an id takes at most 54 bytes |
| ComponentId.DecodeInvertsEncode | crates/pepeaudio-bot/src/component_id.rs:102-139 | the round trip, for every action, non-zero guild and revision, under every key |
| ComponentId.EncodeIsInjective | crates/pepeaudio-bot/src/component_id.rs:81-95 | different components never share an id |
| ComponentId.AcceptedIff | crates/pepeaudio-bot/src/component_id.rs:102-139 | exactly which texts are accepted: four good fields, a dot, the one spelling of the body's tag, 100 bytes |
| ComponentId.SignatureIff | crates/pepeaudio-bot/src/component_id.rs:115-120 | under ten bytes of tag a body is refused for its signature exactly if they are not the first ten of its own code |
| ComponentId.TamperingIsNoticed | crates/pepeaudio-bot/src/component_id.rs:115-120 | another body under an old tag is refused, unless both codes begin alike |
| ComponentId.OtherKeysAreNoticed | crates/pepeaudio-bot/src/component_id.rs:115-120 | so is an id made under another key |
| ComponentId.AcceptedIsSigned | crates/pepeaudio-bot/src/component_id.rs:102-139 | whatever is decoded ends in its own body's code |
| ComponentId.EncodeIs | crates/pepeaudio-bot/src/component_id.rs:81-95 | the text of an id, field by field |
| ComponentId.FieldsRefused | crates/pepeaudio-bot/src/component_id.rs:121-132 | for which fault of its fields a signed body is refused |
| ComponentId.TextRefused | crates/pepeaudio-bot/src/component_id.rs:102-114 | for which fault a text is refused before its signature is looked at |
| ComponentId.EncodeInvertsDecodeIff | crates/pepeaudio-bot/src/component_id.rs:102-139 | an accepted id is the encoder's own exactly when both its numbers are canonical |
| ComponentId.LooseSpellingIsAccepted | crates/pepeaudio-bot/src/component_id.rs:129-132 | a non-canonical id is accepted under every key |

## Left out

- Rounding: samples, gains and ramps are real numbers; NaN and the infinities are one value that the guards reject. The equal-power curve is any function with the exact end points (1, 0) and (0, 1).
- Intermediate finiteness: in real arithmetic no sum or product overflows, so `ensure_finite_intermediate` and `ensure_finite_output` only clip.
- Renderers: a renderer is any deterministic frame-step machine whose warm-up has the state effect of rendering; partitioned and orbit rendering, FFT and resampling are not part of this model.
- AudioProcessor.AudioProcessor.constructor: does not return the zero-capacity and overflow errors of `from_prepared`; it takes a positive capacity.
- Buffers: slices passed to the processor are whole arrays of their own, so sub-slice aliasing of one larger buffer is not modelled.
- UnitRamp and GainRamp are one class `Ramp`; their code is the same.
- PcmPump.PumpPcm: does not model control messages that arrive while a stream plays; cancellation may come at any await. The byte layout of an f32 is any pair of functions.
- GuildPresence: a store call that timed out or was aborted takes effect before that or not at all; lease lengths and tick periods are not modelled.
- GuildLifecycle: command channels, reply delivery and backoff between retries are not modelled; the store and presence calls may fail at any time.
- GuildDispatcher: the saturating increment of `buffered` never saturates below the buffer limit and is a plain increment; a panicked task ends the worker and its state is not carried further.
- DispatchLoop.ShardWorker.RunShard: runs for any given number of rounds instead of for ever; the claim cursor, which the store interprets, is not modelled.
- PlayerActor: commands are changes of the revision, no-ops or errors; queues, voice state and playback effects of each command are not modelled.
- CommandLoop: one guild, one lifetime of its player, envelopes fixed by their command id. Media commands are queued by steps of their own here; how they come to be is `MediaRoute` and `MediaDelivery`.
- CommandLoop.CommandsAreSafe: states at most one change for commands the player applies itself; for media commands see `MediaDelivery`, and `MediaRoute.SuccessMeansQueued` for why their success is only told once the batch is queued.
- CommandLoop.SettledIsNeverExecuted: assumes that no run of the command is under way; `LaterDeliveriesOnlyRead` and `LaterDeliveriesNeverExecute` speak of the later runs without that.
- PlayerActor.ReportsAreHonest: takes it as given that a command whose side effect failed leaves revision and log alone.
- MediaRoute: a resolved batch is non-empty, and media resolution, authorisation and cleanup only decide whether an execution goes on; an idle timer that cannot be set after a change is an outcome of `PlayerActor` only.
- MediaStore: paths are opaque; canonicalisation, symlinks and file ages are not modelled. New identifiers never collide with paths in use, so the collision branch is covered by `MediaCapacity` alone. The store and its downloads share one registry that is never dropped, and a lease is one token for all its clones.
- MediaStore: a file operation whose future is dropped has taken effect by then or not at all.
- MediaDelivery: tasks of a dead worker take no further step, one worker serves a guild in a process, and no other path executes its envelopes.
- MediaStore: a growing reservation is an active one; what growth of an inactive one does is stated by `MediaCapacity.EnsureKeeps`.
- MediaCapacity.Initialize: does not tell its errors apart, and takes the files found as given.
- MediaDownload: creating the partial file, with its retries on colliding names, is not modelled; a download starts with an empty file of its own.
- TrackLifecycle.FailureIsStillToComeIff: anyone may report at any time; whether the worker's stream has already ended is not part of the state.
- TrackLifecycle: atomic steps are sequentially consistent, and the shutdown wiring around the atomics is not modelled.
- ComponentId: the length check on a new key is left out; the message authentication code is any function of key and body; constant-time comparison is not modelled.
- SSE admission and filtering, idle timers, the player registry, configuration loading, permissions, URL and IP policy, PostgreSQL, Discord payloads, logging and supervision would add only easy members.
