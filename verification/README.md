# Verified model of the Silent Disco bridges and evidence checkers

Silent Disco streams one host's playlist to many listeners. This project is a Dafny 4.11
model of the concurrent bridges around its audio core and of the scripts that certify what
the core played, with proofs about every run of the former and every input of the latter.
`dafny verify dfyconfig.toml` checks all of it.

| file | models |
|---|---|
| `CoreNotifications.dfy` | snapshots, events and notification streams shared by the desktop modules |
| `Revision.dfy` | the canonical decimal revision and its Rust and TypeScript parsers |
| `NotificationBuffer.dfy` | the desktop notification dispatcher: observer, subscription workers, replacement, shutdown |
| `CoreSlice.dfy` | the frontend core reducer |
| `Coalescing.dfy` | the dispatcher and the reducer composed |
| `CaptureRing.dfy` | the lock-free capture ring, one atomic access per step |
| `CaptureTap.dfy` | whole calls on that ring, and the tap object |
| `RenderRing.dfy` | the lock-free render ring under concurrent pushes and reads |
| `AudioEngine.dfy` | the real-time engine registry, output handles, render rings and attached taps |
| `HostPlaylist.dfy` | the `next_frame` / `cancel` protocol of the playlist streamer |
| `AppShutdown.dfy` | the application shutdown coordinator with its detached, timed worker |
| `WaveFile.dfy` | canonical WAV files written byte by byte, against the walk |
| `RiffWalk.dfy` | the RIFF chunk walk that admits a WAV file to comparison |
| `PcmFrames.dfy` | decoding of 16-bit PCM in bounded batches |
| `PcmCompare.dfy` | the PCM comparator and its track-boundary tallies |
| `PcmFiles.dfy` | header walk, decoder and comparator composed on file bytes |
| `GaplessTrace.dfy` | the packet and boundary checks on collected playback traces |

**How concurrency is modelled.** Threads are program counters and a run is any sequence of
enabled steps. A step of the capture ring is one atomic load, store or read-modify-write
(sequentially consistent). A step of the dispatcher, the playlist streamer and the shutdown
coordinator is one critical section, one flag access, one send or receive, or one join. A
condition-variable wait is a step that stays disabled until its loop would leave, so lost
wake-ups are outside the model. Each object that the code updates in place is also a class
whose methods are proved equal to the step functions the theorems speak about; the playlist
streamer and the render ring are step systems alone. In the playlist streamer a result counts
as returned when the call releases the lock: the caller may get hold of it later, after a
`cancel` that was waiting has returned too. `HostPlaylist.LateCallsStayOut` is the statement
that does not depend on that order.

**What comes from outside.** The results of a send, a receive, a join, a thread start and a
teardown, the passing of a timeout, and whether the real-time read finds the registry lock
taken are choices of the run. The report of Python's `wave` reader and the payload bytes it
returns are inputs of the checkers. Timestamps are dropped.

**Where a stated property is not the code's.**

- The capture ring is exact in every run that claims at most as many frames as `usize` has
  values, and no further: `CaptureTap.ExactIffWithinWord` states this as an if and only if
  over the bound, for every size. `CaptureTap.WrapOvercommits` is the run one frame past it:
  a full ring with a wrapped write cursor looks empty, the frame is accepted, no loss is
  counted, and draining everything returns a wrong stream.
- The free space the callback computes is right exactly when the write cursor is not behind
  the read cursor (`CaptureRing.FreeSpaceIsRightIffNotWrapped`). That is not enough for an
  exact capture past the bound: a batch that itself runs over the word size overwrites its
  own first frame when the capacity does not divide the word size
  (`RenderRing.BatchOverEdge`). For the render ring, whose free space is always right,
  divisibility is the whole condition past the bound (`RenderRing.RenderExactIff`, with the
  failing run in `RenderRing.UnevenRingOverwrites`).
- A command receipt and a newer snapshot commute when the receipt names its revision
  (`CoreSlice.ReceiptSnapshotRace`). When it omits it, `CoreSlice.OmittedRevisionDiffers` is a
  case where the orders differ and `CoreSlice.OmittedRevisionRace` says exactly when they agree.
- `include/silent_disco_audio.h` ties the "stopping" status to released engines. The code
  also returns it for any engine when the registry lock is taken, and the model follows the
  code.
- Attaching a second tap is refused with the error named "already released"; the model keeps
  that name.

## Model

| member | source | states |
|---|---|---|
| Revision.LongCanonicalTooBig | desktop/src/app/coreSlice.ts:64-70 | every canonical decimal longer than 20 digits exceeds the largest u64, which is what makes the length test harmless |
| Revision.ParsersAgree | desktop/src-tauri/src/host_commands.rs:474-499 | the Rust and the TypeScript parser accept exactly the same strings with the same value |
| Revision.ValueOfPrint | desktop/src/app/coreSlice.ts:64-70 | the printed form of any number is canonical and denotes that number |
| Revision.PrintOfValue | desktop/src/app/coreSlice.ts:64-70 | a canonical string is the printed form of its value, so no two canonical strings share a value |
| Revision.ParseInvertsPrint | desktop/src/app/coreSlice.ts:64-70 | parsing and printing are two-sided inverses between the accepted strings and u64, for both parsers |
| NotificationBuffer.StepKeepsInv | desktop/src-tauri/src/notification_buffer.rs:189-505 | every critical section, send, thread start and join keeps the dispatcher invariant: one live worker, conserved events, ordered snapshots |
| NotificationBuffer.RunKeepsInv | desktop/src-tauri/src/notification_buffer.rs:189-505 | so does every interleaving of any length |
| NotificationBuffer.EventsConserved | desktop/src-tauri/src/notification_buffer.rs:189-446 | in every run the accepted events are, in order, those that left, the one in flight, the parked failure and the queue; the successful sends are the delivered ones; drops never exceed replacements plus shutdowns |
| NotificationBuffer.DropNeedsReplacement | desktop/src-tauri/src/notification_buffer.rs:418-481 | the only step of any run that drops an event is a failed send whose subscription was already cleared by the thread stopping that same worker |
| NotificationBuffer.OneWorkerNoPanic | desktop/src-tauri/src/notification_buffer.rs:418-481 | two workers are never live at once, an event in flight implies an empty parked slot, and the "more than one failed delivery" assertion is unreachable |
| NotificationBuffer.SubscriptionOrder | desktop/src-tauri/src/notification_buffer.rs:336-405 | every subscription first receives a snapshot, its revisions strictly increase, and no later subscription sees an older revision |
| NotificationBuffer.EventsOvertakeSnapshots | desktop/src-tauri/src/notification_buffer.rs:362-394 | however many snapshots arrive, while an event waits no subscription completes more than one snapshot send |
| NotificationBuffer.NoSilentDeath | desktop/src-tauri/src/notification_buffer.rs:336-446 | in every run a subscription nobody is stopping has ended exactly when a delivery failure is on record, and an active one has its worker |
| NotificationBuffer.TakeIsFirstOwed | desktop/src-tauri/src/notification_buffer.rs:362-405 | a worker leaves exactly when its subscription is over, waits exactly when it owes nothing, and otherwise sends the first thing owed: a fresh subscriber the snapshot, then parked event, queue, newer snapshot |
| NotificationBuffer.WorkerCatchesUp | desktop/src-tauri/src/notification_buffer.rs:336-394 | from every reachable state, with sends going through and nothing arriving, the worker's steps are bounded, drop nothing, and stop only where the subscriber has caught up |
| NotificationBuffer.CatchUpExists | desktop/src-tauri/src/notification_buffer.rs:336-394 | and a run of takes and sends to that point exists |
| NotificationBuffer.TakeQueue | desktop/src-tauri/src/notification_buffer.rs:362-394 | whatever the worker takes, the concatenation in flight, parked, pending is unchanged |
| NotificationBuffer.SettleQueue | desktop/src-tauri/src/notification_buffer.rs:336-360 | a finished send moves exactly its own event out of the queue and pays for a drop only with a replacement |
| NotificationBuffer.NotificationState.OnNotification | desktop/src-tauri/src/notification_buffer.rs:284-323 | the observer's critical section: refuses with its own error when closed and when full, coalesces snapshots by revision, appends events |
| NotificationBuffer.NotificationState.TakeNext | desktop/src-tauri/src/notification_buffer.rs:362-405 | one pass of the wait loop: done exactly when the subscription is over, waiting exactly when nothing is owed, else the first owed item, which leaves the queue if it is an event |
| NotificationBuffer.NotificationState.RecordDeliveryFailure | desktop/src-tauri/src/notification_buffer.rs:418-446 | a failed send parks its event and ends the subscription only while that subscription is current |
| NotificationBuffer.NotificationState.ActivateNext | desktop/src-tauri/src/notification_buffer.rs:196-220 | hands out the next identifier exactly when the bridge is open, has a snapshot and identifiers are left, and tells the three refusals apart |
| CoreSlice.ReducerInvariant | desktop/src/app/coreSlice.ts:99-340 | after any actions: the snapshot revision is a printed u64, ready implies a snapshot, no superseded receipt is pending, the tables keep 128/32/64, error ids strictly grow and next id minus one is kept plus dropped plus dismissed |
| CoreSlice.NewestAreKept | desktop/src/app/coreSlice.ts:99-118 | after any actions the diagnostics are the newest 64 of all received; every listed error is the one recorded under its id and newer than any the bound dropped; without dismissals the errors are the newest 32 of all recorded |
| CoreSlice.RunDropsOldest | desktop/src/app/coreSlice.ts:99-118 | an id the bound dropped stays below every id listed from then on |
| CoreSlice.SnapshotLaw | desktop/src/app/coreSlice.ts:138-167 | a snapshot notification replaces an older snapshot, or is only counted as stale, or fails the frontend under the next error id, by whether its revision is a newer, another or no printed u64 |
| CoreSlice.ReceiptLeavesIff | desktop/src/app/coreSlice.ts:122-340 | a pending receipt is gone after an action exactly when a superseding snapshot, an error, a bridge change or its own receipt or failure came; otherwise it is unchanged but for the last effect kind |
| CoreSlice.ReceiptEntersIff | desktop/src/app/coreSlice.ts:262-312 | a receipt enters exactly when registered, not superseded and with room, carrying its revision or else the current one |
| CoreSlice.StaleLaw | desktop/src/app/coreSlice.ts:138-336 | each stale counter grows by one exactly on its kind of stale notification or receipt |
| CoreSlice.LifecycleLaw | desktop/src/app/coreSlice.ts:193-261 | which lifecycle and snapshot every action leaves |
| CoreSlice.ReducePending | desktop/src/app/coreSlice.ts:122-340 | every action keeps the pending table bounded and free of receipts older than the snapshot |
| CoreSlice.ReduceErrors | desktop/src/app/coreSlice.ts:99-118 | every action keeps error ids increasing and accounts for every id handed out |
| CoreSlice.RunKeepsInv | desktop/src/app/coreSlice.ts:193-340 | the state invariant holds after any sequence of actions |
| CoreSlice.ReceiptSnapshotRace | desktop/src/app/coreSlice.ts:262-312 | a receipt with its revision and a newer accepted snapshot commute on snapshot, pending table, lifecycle and diagnostics, also for a duplicate id and a full table |
| CoreSlice.OmittedRevisionRace | desktop/src/app/coreSlice.ts:262-312 | without a revision the two orders leave the same table if and only if the settled table already holds the id or is full |
| CoreSlice.OmittedRevisionDiffers | desktop/src/app/coreSlice.ts:262-312 | a state in which the two orders leave different tables |
| CoreSlice.DismissMember | desktop/src/app/coreSlice.ts:337-339 | dismissing removes exactly the entries with that id |
| CoreSlice.Slice.RecordFrontendError | desktop/src/app/coreSlice.ts:99-118 | the list, id and drop count after recording are those of the reducer that keeps the newest |
| CoreSlice.Slice.SettleCommandsFromSnapshot | desktop/src/app/coreSlice.ts:122-136 | the loop over receipts deletes exactly those the snapshot supersedes |
| CoreSlice.Slice.TakeSnapshot | desktop/src/app/coreSlice.ts:138-167 | accepted, stale and invalid snapshots leave exactly the specified state |
| CoreSlice.Slice.FailFromLatest | desktop/src/app/coreSlice.ts:169-179 | the failed lifecycle carries the newest error with its id, or the missing-detail error |
| CoreSlice.Slice.Notify | desktop/src/app/coreSlice.ts:240-261 | the notification reducer updates the draft as specified |
| CoreSlice.Slice.AddPending | desktop/src/app/coreSlice.ts:262-312 | the pending-command reducer, with its superseded, duplicate and overflow cases |
| CoreSlice.Slice.RemoveReceipt | desktop/src/app/coreSlice.ts:313-320 | removes the receipt or counts a stale one |
| CoreSlice.Slice.BecomeReady | desktop/src/app/coreSlice.ts:202-227 | only the profile being opened can become ready, and only with a valid snapshot |
| CoreSlice.Slice.Dispatch | desktop/src/app/coreSlice.ts:193-340 | every action on the draft is the reducer the invariants are proved about |
| Coalescing.FoldLogs | desktop/src/app/coreSlice.ts:240-261 | errors and diagnostics depend only on the events of a stream |
| Coalescing.FoldSnapshot | desktop/src/app/coreSlice.ts:138-167 | the snapshot depends only on the highest revision of a stream |
| Coalescing.FoldPending | desktop/src/app/coreSlice.ts:122-188 | the pending table depends only on the events and the final snapshot, wherever the snapshots stood between them |
| Coalescing.SameEventsSameState | desktop/src/app/coreSlice.ts:138-261 | streams with the same events and the same final snapshot leave the same state up to the stale counters |
| Coalescing.QuiescentLatest | desktop/src-tauri/src/notification_buffer.rs:362-405 | when the subscriber has caught up, what was sent ends at the authoritative snapshot and nothing is owed |
| Coalescing.CoalescingIsInvisible | desktop/src-tauri/src/notification_buffer.rs:299-405 | in every drop-free run at quiescence the frontend fed the coalesced stream equals the one fed every accepted notification: snapshot, lifecycle, pending, errors, diagnostics |
| CaptureRing.StreamSlotsDiffer | rust/silent-disco-ffi/src/callback_capture.rs:48-55 | samples less than one ring apart never share a slot |
| CaptureRing.StoreOk | rust/silent-disco-ffi/src/callback_capture.rs:48-55 | a store into an unpublished slot disturbs neither the unread samples nor the stores already made |
| CaptureRing.StepKeepsInv | rust/silent-disco-ffi/src/callback_capture.rs:41-80 | every atomic access of either thread keeps the ring invariant while the claimed frames fit in usize |
| CaptureRing.RunKeepsInv | rust/silent-disco-ffi/src/callback_capture.rs:41-80 | so does every interleaving |
| CaptureRing.OwnedSlotsDisjoint | rust/silent-disco-ffi/src/callback_capture.rs:41-80 | the slots the producer may still write and those the consumer may still read are disjoint |
| CaptureRing.CaptureIsExact | rust/silent-disco-ffi/src/callback_capture.rs:41-80 | for every interleaving that claims at most as many frames as usize has values: drained plus unread is the accepted stream in order, the batch being drained is its front, ownership is disjoint, and offered frames are accepted or lost |
| CaptureRing.RunTracks | rust/silent-disco-ffi/src/callback_capture.rs:41-80 | with no bound, the cursors are the true frame counts modulo the word size |
| CaptureRing.RunCountsCallbacks | rust/silent-disco-ffi/src/callback_capture.rs:41-42 | the callback counter is the number of callbacks begun, modulo its width |
| CaptureRing.WrappedRun | rust/silent-disco-ffi/src/callback_capture.rs:41-80 | up to the word size itself a run with wrapping cursors is, step for step, the run of a machine with a larger word |
| CaptureRing.FreeSpaceIsRightIffNotWrapped | rust/silent-disco-ffi/src/callback_capture.rs:44-47 | in every run, with the ring within capacity, the computed free space is the true one if and only if the loaded write cursor is not behind the read cursor |
| CaptureTap.RecordIsARun | rust/silent-disco-ffi/src/callback_capture.rs:41-62 | an undisturbed callback is a run of the atomic steps |
| CaptureTap.DrainIsARun | rust/silent-disco-ffi/src/callback_capture.rs:65-80 | an undisturbed drain is a run of the atomic steps |
| CaptureTap.RecordAppends | rust/silent-disco-ffi/src/callback_capture.rs:41-62 | a callback appends the front of its buffer that fits behind the unread samples and counts the rest as lost |
| CaptureTap.DrainRemovesFront | rust/silent-disco-ffi/src/callback_capture.rs:65-80 | a drain removes and returns exactly the oldest samples |
| CaptureTap.CountersReach | rust/silent-disco-ffi/src/callback_capture.rs:41-80 | some run brings both cursors to any given value below the word size |
| CaptureTap.DrainAllIffExact | rust/silent-disco-ffi/src/callback_capture.rs:65-80 | draining everything completes the accepted stream exactly when the tap is exact |
| CaptureTap.WrapOvercommits | rust/silent-disco-ffi/src/callback_capture.rs:44-55 | for every size a run of one frame more than the word size exists that holds more frames than the ring has, counts no loss, and whose next full drain returns samples other than the accepted ones |
| CaptureTap.ExactIffWithinWord | rust/silent-disco-ffi/src/callback_capture.rs:41-80 | for every size and every n, all runs claiming at most n frames are exact if and only if n is at most the number of usize values |
| CaptureTap.CallbackCaptureTap.constructor | rust/silent-disco-ffi/src/callback_capture.rs:27-37 | a new tap is the initial state of the step system |
| CaptureTap.CallbackCaptureTap.Create | rust/silent-disco-ffi/src/callback_capture.rs:23-38 | a tap exists exactly for capacities in the supported range |
| CaptureTap.CallbackCaptureTap.StoreFrame | rust/silent-disco-ffi/src/callback_capture.rs:48-55 | the channel loop makes the next two stores of the batch |
| CaptureTap.CallbackCaptureTap.RecordCallback | rust/silent-disco-ffi/src/callback_capture.rs:41-62 | the nested loops on the slot array have the effect the run lemmas describe |
| CaptureTap.CallbackCaptureTap.LoadFrames | rust/silent-disco-ffi/src/callback_capture.rs:69-77 | the nested loops return the samples of the slots in stream order |
| CaptureTap.CallbackCaptureTap.Drain | rust/silent-disco-ffi/src/callback_capture.rs:65-80 | returns what the drained history grew by and leaves the state the run lemmas describe |
| CaptureTap.CallbackCaptureTap.Counters | rust/silent-disco-ffi/src/callback_capture.rs:82-88 | while nothing wrapped, captured is the frames accepted, lost the frames refused, and together every frame ever offered |
| AudioEngine.IssuedAgrees | rust/silent-disco-ffi/src/audio_abi.rs:72-76 | a token outside the live map was issued, by the high-water test, exactly when it is released in the full history |
| AudioEngine.StepSimulates | rust/silent-disco-ffi/src/audio_abi.rs:160-285 | each call answers as the full unissued/active/released history demands and keeps representing it |
| AudioEngine.RegistryRefinesLedger | rust/silent-disco-ffi/src/audio_abi.rs:66-285 | over every run the live map and one counter refine that history: release, attach and read answers; stopping exactly for released tokens or a taken lock, invalid state exactly for unissued tokens otherwise; a read that finds the lock taken changes nothing |
| AudioEngine.TokensNeverReused | rust/silent-disco-ffi/src/audio_abi.rs:160-181 | the tokens of any run are 1, 2, 3, ... without reuse up to and including the largest u64, after which every valid open fails |
| AudioEngine.ReleasedAtMostOnce | rust/silent-disco-ffi/src/audio_abi.rs:189-200 | over any run a token is released once if it ends released and never otherwise |
| AudioEngine.RetiredIsInert | rust/silent-disco-ffi/src/audio_abi.rs:189-285 | after any further calls, a read, attach, detach or release naming a released token changes nothing at all, and a read of it yields silence and zero supplied frames |
| AudioEngine.TapAccounting | rust/silent-disco-ffi/src/audio_abi.rs:251-270 | over every run captured plus lost grows by exactly the frames of the active reads heard, and without loss drained plus buffered is those output buffers, silence included |
| RenderRing.RenderIsExact | rust/silent-disco-core/src/audio/render_ring.rs:262-372 | under every interleaving of concurrent pushes and reads, within the word size or with a capacity dividing it, supplied plus queued is what pushes accepted, in order, and the threads never touch one slot |
| RenderRing.CallsAreRuns | rust/silent-disco-core/src/audio/render_ring.rs:262-372 | an undisturbed push or read is a run of those atomic steps |
| RenderRing.BatchOverEdge | rust/silent-disco-ffi/src/callback_capture.rs:41-62 | a batch accepted with the right free space that runs over the word size leaves the stream inexact, with no loss counted, whenever the capacity does not divide the word size |
| RenderRing.UnevenRingOverwrites | rust/silent-disco-core/src/audio/render_ring.rs:262-285 | when the capacity does not divide the word size, some run of one frame more than the word size loses a queued frame |
| RenderRing.RenderExactIff | rust/silent-disco-core/src/audio/render_ring.rs:262-372 | for every size and every n, all runs claiming at most n frames conserve them if and only if n is within the word size or the capacity divides it |
| AudioEngine.RenderPushIsRingPush | rust/silent-disco-core/src/audio/render_ring.rs:262-285 | the queue value of the registry model is the abstraction of the lock-free ring under a push |
| AudioEngine.RenderReadIsRingRead | rust/silent-disco-core/src/audio/render_ring.rs:339-372 | and under a read, which supplies what the padded output starts with |
| AudioEngine.RingConserves | rust/silent-disco-ffi/src/audio_abi.rs:251-270 | for every ring and every run of calls, queued plus accepted pushes equals supplied plus queued, in order |
| AudioEngine.PushReports | rust/silent-disco-ffi/src/audio_output.rs:111-125 | a push is refused whole exactly for malformed PCM; otherwise the number it returns is how many frames, from the front, joined the queue, and that is all of them or as many as filled the ring |
| AudioEngine.ReadSupplies | rust/silent-disco-ffi/src/audio_abi.rs:251-270 | an active read takes the front of the queue, returns it followed by silence, and leaves frames queued only if fully supplied |
| AudioEngine.OpenGivesRing | rust/silent-disco-ffi/src/audio_abi.rs:160-181 | an opened token has an empty ring of the capacity asked for |
| AudioEngine.CapacityIsFixed | rust/silent-disco-core/src/audio/render_ring.rs:189-233 | a ring keeps its token and capacity through every run |
| AudioEngine.AttachLaw | rust/silent-disco-ffi/src/audio_abi.rs:203-228 | attaching takes effect exactly on a live token without a tap, detaching on a live token, and neither touches another entry |
| AudioEngine.AttachedUntilEnded | rust/silent-disco-ffi/src/audio_abi.rs:203-228 | an attached tap stays attached through every run without a detach or release of its token |
| AudioEngine.ClosedForGood | rust/silent-disco-ffi/src/audio_output.rs:164-197 | every push through a released handle, after any further calls, is refused as closed and changes nothing |
| AudioEngine.FramesInvertInterleave | rust/silent-disco-ffi/src/audio_output.rs:111-125 | frames hold the interleaved samples in order, left then right |
| AudioEngine.FiniteIff | rust/silent-disco-ffi/src/audio_output.rs:118-122 | a sample counts as finite exactly when its exponent field is not all ones |
| AudioEngine.RetryAcceptsPrefix | rust/silent-disco-ffi/src/audio_output.rs:111-125 | a caller that retries what the last push did not report as written gets a prefix of its source accepted |
| AudioEngine.RetryPlaysPrefix | rust/silent-disco-ffi/src/audio_output.rs:111-125 | so what callbacks play, with any calls in between, and what is still queued after it, is a prefix of the source |
| AudioEngine.CaptureRingIsTap | rust/silent-disco-ffi/src/callback_capture.rs:41-62 | the tap value used by the registry is the abstraction of the lock-free ring under a callback |
| AudioEngine.CaptureRingDrains | rust/silent-disco-ffi/src/callback_capture.rs:65-80 | and under a drain, frame for frame |
| AudioEngine.EngineRegistry.constructor | rust/silent-disco-ffi/src/audio_abi.rs:78-85 | the registry starts with nothing issued |
| AudioEngine.EngineRegistry.OpenOutput | rust/silent-disco-ffi/src/audio_output.rs:80-92 | opens a ring under the next token or reports a bad configuration or exhaustion |
| AudioEngine.EngineRegistry.ReleaseRenderRing | rust/silent-disco-ffi/src/audio_abi.rs:189-200 | removes a live token and tells released from unknown otherwise |
| AudioEngine.EngineRegistry.ReleaseOutput | rust/silent-disco-ffi/src/audio_output.rs:164-173 | releases the handle's token once; a repeated release does nothing |
| AudioEngine.EngineRegistry.AttachCallbackCapture | rust/silent-disco-ffi/src/audio_abi.rs:203-218 | attaches to a live token without a tap and refuses otherwise |
| AudioEngine.EngineRegistry.FillOutput | rust/silent-disco-core/src/audio/render_ring.rs:339-372 | the in-place loops leave the oldest queued frames followed by silence |
| AudioEngine.EngineRegistry.ReadInterleaved | rust/silent-disco-ffi/src/audio_abi.rs:251-285 | the caller's buffer, the status, the supplied count, the ring and the tap after a read; an invalid argument leaves the buffer alone |
| AudioEngine.EngineRegistry.PushFrames | rust/silent-disco-ffi/src/audio_output.rs:111-125 | odd or non-finite PCM is refused with nothing changed; a returned count is exactly the frames appended to the queue |
| HostPlaylist.StepKeepsInv | rust/silent-disco-ffi/src/host_playlist.rs:179-246 | every step of every call keeps the lock, handle and frame-order invariant |
| HostPlaylist.RunKeepsInv | rust/silent-disco-ffi/src/host_playlist.rs:179-246 | so does every interleaving of any number of calls |
| HostPlaylist.PlaylistProtocol | rust/silent-disco-ffi/src/host_playlist.rs:179-246 | in every run the packetizer is joined or cancelled at most once, frames come out as a prefix of channel order, and in the order of lock releases no frame or end follows an end or a cancel |
| HostPlaylist.LateCallsStayOut | rust/silent-disco-ffi/src/host_playlist.rs:179-246 | once the flag is up it stays up and no call that begins later gets past its entry check |
| HostPlaylist.CancelReturnedRaisesFlag | rust/silent-disco-ffi/src/host_playlist.rs:232-246 | in every run in which a cancel or an end was returned the flag is up and the handle gone, and a returned cancel has signalled the packetizer |
| HostPlaylist.SupportedReturnedIs | rust/silent-disco-ffi/src/host_playlist.rs:399-423 | the frames handed out are the supported ones among those taken, in order |
| HostPlaylist.EndMeansComplete | rust/silent-disco-ffi/src/host_playlist.rs:197-229 | unless a cancel raised the flag, nothing received is withheld and an end or join error is returned only after every frame ever sent |
| HostPlaylist.OutcomeIsReported | rust/silent-disco-ffi/src/host_playlist.rs:213-246 | in every run a clean end is reported exactly when next_frame joined the packetizer with success, the join error exactly when that join failed, and a failed cancel exactly when a cancel took the packetizer and it failed |
| HostPlaylist.NothingIff | rust/silent-disco-ffi/src/host_playlist.rs:179-214 | a call comes back with nothing exactly when it finds the flag up or its wait expired without a frame |
| HostPlaylist.NothingNewAfterFlag | rust/silent-disco-ffi/src/host_playlist.rs:197-211 | once the flag is up, the only frame still returned is one already in delivery, and only a receive already begun takes another from the channel |
| AppShutdown.StepKeepsInv | desktop/src-tauri/src/app_shutdown.rs:95-258 | every close request, worker event, timeout and decision keeps the phase in step with the one attempt |
| AppShutdown.ExitNeedsConfirmedTeardown | desktop/src-tauri/src/app_shutdown.rs:156-258 | in every run teardown starts at most once, at most one request performs it, and any exit follows a success received before the timeout |
| AppShutdown.FailureIsFinal | desktop/src-tauri/src/app_shutdown.rs:114-127 | after a recorded failure no request, late completion or timeout changes the phase or exits |
| AppShutdown.ExitIff | desktop/src-tauri/src/app_shutdown.rs:219-258 | exits grow by one exactly at the decision after a received success and at a close request once terminated |
| AppShutdown.AttemptEndsInExitOrFailure | desktop/src-tauri/src/app_shutdown.rs:219-258 | when the attempt is over the process was told to exit if teardown succeeded in time, and otherwise the failure is on record |
| AppShutdown.FailureIsTheCause | desktop/src-tauri/src/app_shutdown.rs:114-189 | in every run the recorded failure is the error that happened: timeout, failed thread start or the teardown's own |
| AppShutdown.AppShutdownCoordinator.ClaimShutdown | desktop/src-tauri/src/app_shutdown.rs:95-107 | the first claim performs, every later one sees the current phase |
| RiffWalk.NextChunk | scripts/compare_pcm_capture.py:45-84 | any layout that accounts for the file continues with the chunk the walk stands on |
| RiffWalk.NoLayoutHere | scripts/compare_pcm_capture.py:52-84 | a chunk the walk refuses rules out every layout of the file |
| RiffWalk.ReadingIsUnique | scripts/compare_pcm_capture.py:45-84 | a file has at most one acceptable layout and is never both complete and cut short |
| WaveFile.Le32Iff | scripts/compare_pcm_capture.py:31-50 | four bytes read as n exactly when they are the little-endian bytes of n |
| WaveFile.FormatIff | scripts/compare_pcm_capture.py:57-69 | sixteen format bytes are accepted exactly when they are those of plain or extensible 16-bit PCM with one or two channels and some rate |
| WaveFile.WrittenVerdict | scripts/compare_pcm_capture.py:27-84 | every written WAV file, and every cut of it: complete exactly when nothing is missing, truncated exactly when the cut falls inside the audio payload, rejected otherwise |
| WaveFile.TrailingBytesRefused | scripts/compare_pcm_capture.py:33-34 | bytes after the end of a written file are never overlooked |
| RiffWalk.WalkRiff | scripts/compare_pcm_capture.py:27-84 | accepts as complete exactly the files tiled by padded chunks from byte 12 to a physical end equal to the declared end with one fmt and one data chunk, and as truncated exactly those whose tiling ends in a cut audio payload |
| RiffWalk.CloseComplete | scripts/compare_pcm_capture.py:79-84 | the checks after a full walk decide between the complete tiling and rejection |
| RiffWalk.CloseTruncated | scripts/compare_pcm_capture.py:74-84 | the checks after a cut walk decide between the truncated tiling and rejection |
| RiffWalk.WavInfo | scripts/compare_pcm_capture.py:23-100 | succeeds exactly for an acceptable layout with a supported reader report and frame-aligned audio, so the frame count stands for every declared audio byte |
| PcmFrames.UnpackSplit | scripts/compare_pcm_capture.py:103-109 | cutting the payload at a frame edge cuts its frames the same way, so batch size cannot be observed |
| PcmFrames.UnpackUniform | scripts/compare_pcm_capture.py:103-109 | every decoded frame has one sample per channel |
| PcmFrames.UnpackInvertsPack | scripts/compare_pcm_capture.py:103-109 | unpacking gives back every stream of signed 16-bit frames from its little-endian bytes |
| PcmFrames.DecodeFrames | scripts/compare_pcm_capture.py:103-109 | the batch loop yields one unpacking of the whole payload and fails exactly when it ends inside a frame |
| PcmCompare.MarkKeepsTally | scripts/compare_pcm_capture.py:168-173 | marking a later fault keeps count and first index the cardinality and minimum of the faults in the window |
| PcmCompare.MarkBoundaryMismatch | scripts/compare_pcm_capture.py:168-173 | the loop marks every boundary whose window holds the frame and no other |
| PcmCompare.MakeBoundaries | scripts/compare_pcm_capture.py:151-162 | each boundary sits at the declared end of its track with a window clipped to the reference |
| PcmCompare.CountBadSamples | scripts/compare_pcm_capture.py:204-211 | counts exactly the samples off by more than the tolerance |
| PcmCompare.CountPosition | scripts/compare_pcm_capture.py:187-219 | one position moves each counter by exactly its share and is reported faulty exactly when it is |
| PcmCompare.Scan | scripts/compare_pcm_capture.py:175-220 | after the loop, counters and tallies are exact over the longer stream |
| PcmCompare.Compare | scripts/compare_pcm_capture.py:112-234 | PASS if and only if the lengths agree, every sample is within tolerance and the header claims no absent frame; missing, extra, mismatch counts and boundary tallies are exact; refusal exactly for inadmissible inputs |
| PcmCompare.CleanIsFaithful | scripts/compare_pcm_capture.py:234 | three zero counters mean equal length and every captured sample between wanted minus and wanted plus tolerance, and conversely |
| PcmCompare.ZeroToleranceIsEquality | scripts/compare_pcm_capture.py:234 | at tolerance zero that is equality of the two frame streams |
| PcmCompare.ExtraTailIsNotTallied | scripts/compare_pcm_capture.py:151-162 | every boundary tally is that of the comparison stopped at the end of the reference |
| PcmCompare.BoundariesAreSeams | scripts/compare_pcm_capture.py:151-166 | though only the total length is checked, in a comparison that goes through the reference before each boundary is exactly the tracks before it |
| PcmFrames.UnpackInjective | scripts/compare_pcm_capture.py:103-109 | different payloads decode to different frames |
| PcmFiles.IntactIffSound | scripts/compare_pcm_capture.py:23-109 | a file never yields more frames than it declares, and as many exactly when none of it is cut off |
| PcmFiles.AdmittedIffComparable | scripts/compare_pcm_capture.py:138-150 | the comparison goes through with no header frame absent exactly when every file is supported and whole, in one format, and no reference is empty |
| PcmFiles.FaithfulIffSameBytes | scripts/compare_pcm_capture.py:164-220 | at tolerance zero equal frames mean equal audio bytes, references laid end to end |
| PcmFiles.CompareFiles | scripts/compare_pcm_capture.py:112-234 | from bytes to verdict at tolerance zero: PASS if and only if all files are whole and comparable and the capture's audio bytes are the concatenation of the references' |
| PcmFiles.WrittenIsSound | scripts/compare_pcm_capture.py:23-100 | every written file of whole frames is supported, all there, and read as it was written |
| GaplessTrace.PacketsFor | scripts/check-gapless-evidence.py:52-69 | accepts exactly the traces that read as packets each following its predecessor |
| GaplessTrace.ChainIffExactCover | scripts/check-gapless-evidence.py:52-69 | comparing neighbours passes a trace if and only if its numbers run on and every sample of the window is in exactly one packet, in order |
| GaplessTrace.WindowIsFrames | scripts/check-gapless-evidence.py:52-81 | the window of a passing trace is as long as its packets together |
| GaplessTrace.BoundariesFor | scripts/check-gapless-evidence.py:72-91 | accepts exactly the boundary lists that read, lie strictly inside the window and strictly increase |
| GaplessTrace.MatchesHost | scripts/check-gapless-evidence.py:169-172 | a listener passes exactly when its trace reads as the host's packets and boundaries |
| GaplessTrace.CheckCapture | scripts/check-gapless-evidence.py:128-183 | accepts exactly when host and all distinctly named listeners trace the same packets and boundaries |
| GaplessTrace.ListenersMissNothing | scripts/check-gapless-evidence.py:128-183 | in an accepted capture every host sample is in exactly one packet of every listener under the host's number, and every boundary is in exactly one packet |

## Left out

- Core actor, scheduler, decoder, packetizer, jitter buffer and protocol codec: the packetizer is an opaque frame channel; the others are behind the bridges modelled here.
- Weak memory: atomics are sequentially consistent; acquire and release orderings are not distinguished.
- Debug builds: cursor overflow wraps, as in a release build, instead of panicking.
- Mutex poisoning, contained panics and the test-only registry entry: no run contains them.
- Condition-variable wake-ups and wall-clock progress: nothing is claimed about when a step happens.
- Telemetry counters of the render ring and the `queued_frames` and `engine_token` accessors: the calls modelled here do not depend on them.
- Token narrowing to `i64` and pointer width: a token is a u64 throughout.
- The handle registry of `android_abi.rs`: its estimator handles are separate from the audio engine tokens modelled here.
- React screens, Tauri commands, TLS, sockets, storage and listener proofs: they talk to the operating system, the network or the user, and are not part of this model.
- Error timestamps, error ids beyond 2^53 and inherited object keys as operation ids in the frontend state.
- AudioEngine.RingConserves: each push and read is one call here; their interleaving on atomics is the subject of `RenderRing`.
- AudioEngine.EngineRegistry.FillOutput: copies from the queue value; the slot indices are in `CaptureTap` and `RenderRing`.
- HostPlaylist.PlaylistProtocol: orders results by lock release, not by the moment the caller receives them.
- AppShutdown.ExitNeedsConfirmedTeardown: a timeout may strike at any moment of the wait, which allows more runs than the clock does.
- PcmCompare.Compare: the root-mean-square and maximum errors, the example list, the commit hash and the check that the capture is not its own reference are not modelled.
- RiffWalk.WavInfo: the `wave` reader's own parsing is an input.
- PcmFiles.CompareFiles: assumes that the `wave` reader returns the bytes of the audio chunk that are in the file and counts the chunk's whole frames.
- GaplessTrace.CheckCapture: schema, sample rate, expected and forbidden boundaries, counters and output identities are not modelled; the packet and boundary checks do not depend on them.
