# A verified model of the device session core

This project models, in Dafny, the parts of the JetKVM bridge that decide what happens to a device: how
RTP packets become H.264 frames, who owns the one session to a device, which operation may use it when,
and what a caller may believe about an operation that did not succeed.

Each stateful part is written twice. A *model* gives the state as a value and every operation as a
function on it (`StreamModel`, `ReceiverModel`, `OwnerModel`, `GateModel`, `RpcModel`, `HidModel`,
`UploadModel`, `AdmissionModel`). A *class* holds the real fields, and each of its methods is proved to do
to the fields exactly what the function says; the table below lists of these methods only the entry points
and those with a loop of their own. The theorems are about the functions and about every run of
them, with the environment (other goroutines, the network, clocks, cancelled contexts) choosing freely.

## The frame assembler

`Rtp`, `NalPayload`, `Depacketizer` and `ZeroRun` hold packets with wrapping 16-bit sequence numbers
(section 5.1 of RFC 3550) and H.264 payloads (sections 5.6, 5.7.1 and 5.8 of RFC 6184). `RoundTrip` and
`AnnexB` prove the two round trips. `StreamModel` and `H264Assembler` hold the assembler itself.
`StreamSafety` and `StreamRuns` prove what every reachable state keeps and that every emitted frame is
whole; `Confluence` proves that reordering and duplication make no difference, `Transition` that they make
none either to a unit without a marker, which the next timestamp closes; `Fragments` says which units are
incomplete; `DrainRefinement` proves that the streaming path leaves the stream as the buffered path does.
`VideoReceiver` and `ReceiverRuns` add captures.

## The device owner

`OwnerModel` and `DeviceOwners` hold the command loop, one function and one method per command. What the
loop sends and starts is appended to logs, so that replies and goroutines can be counted. `OwnerSafety`
proves the loop's invariant, `OwnerBooks`, `OwnerTasks` and `OwnerStarts` keep the books (replies to
workers and callers, goroutines, started operations), `OwnerMoves` follows sessions, claims and the queue,
`OwnerRuns` puts the loop together with its sessions, goroutines, watcher and the manager's latch and states
the results. `OwnerLogs` and `OwnerProgress` follow each worker to its reply, `OwnerCallers` each release,
takeover and stop to its answer; `OwnerOwnership` proves sticky ownership and `OwnerTakeover` the confluence
of a late takeover.
`AdmissionModel` models the latch and the permits themselves.

## Gates and evidence

`FairGate` holds the gate, its interleavings, and the order in which one operation takes several gates.
`RpcSession` holds request and response correlation, `UniqueJson` and `RpcCodec` the reading of frames.
`Hid` and `Evidence` hold keyboard and mouse operations, `Uploads` the upload sequence and the error
classifiers. `Honesty` puts them together: what `not_sent` means to the caller.

Five promises turn out to need a condition, and each is proved if and only if it holds. The streaming
path agrees with the buffered one exactly when the unit lacks no part of a fragmented NAL unit
(`StreamingAgreesIff`, `CompletableIff`). A late takeover wins exactly when no validation is in flight or it
is recognised already (`LateTakeoverWinsIff`). An idle expiry spares it exactly when it does not take hold
(`IdleExpiryLosesIff`). A worker registered while a session is being closed is served, at the owner alone,
exactly when the closing was for idleness, which is why the manager's latch is needed
(`RegisteredDuringCleanup`). The answer given because the owner's loop has exited is honest exactly when the
reply it does not read is not the operation's own (`DoneArmHonestIff`). Each failing case is shown by a
concrete input or by a concrete run from the start.

`dafny verify dfyconfig.toml` checks everything.

## Model

| member | source | states |
|---|---|---|
| `NalPayload.StapAAnnexBSize` | internal/jetkvm/video.go:801-831 | the checked aggregation walk accepts exactly the well-formed STAP-A payloads and returns the framed size of their NAL units; every slice is in bounds |
| `NalPayload.ValidateH264Payload` | internal/jetkvm/video.go:745-795 | per-packet check of single NAL units, STAP-A and FU-A against the open fragmentation unit: rejected, start missing, or accepted with projected size and next open unit |
| `Depacketizer.AppendAggregated` | internal/jetkvm/video.go:691-701 | the unchecked aggregation walk takes exactly the NAL units the checked walk found |
| `Depacketizer.DepacketizePayload` | internal/jetkvm/video.go:663-711 | one turn of the depacketizing loop is the step function |
| `Depacketizer.Summarize` | internal/jetkvm/video.go:713-732 | the flags and the last parameter sets of a unit, or rejection when one is too long |
| `Depacketizer.DepacketizeH264AccessUnit` | internal/jetkvm/video.go:639-732 | the whole loop: header checks, payloads in order, final pass |
| `RoundTrip.PacketizationRoundTrip` | internal/jetkvm/video.go:639-732 | any list of valid NAL units cut into any mix of single, STAP-A and FU-A packets within the bounds comes back exactly, in order, with the IDR flag and the last SPS and PPS |
| `RoundTrip.DepacketizedSound` | internal/jetkvm/video.go:639-732 | conversely, whatever is returned consists of well-formed NAL units within the bounds and is summarized correctly |
| `AnnexB.AnnexBRoundTrip` | internal/jetkvm/video.go:833-880 | a framed stream splits at its start codes into exactly the NAL units it was made of |
| `AnnexB.WellFormedIsSplittable` | internal/jetkvm/video.go:741-743 | every NAL unit the depacketizer lets through meets the condition of the round trip |
| `ZeroRun.ScanFragment` | internal/jetkvm/video.go:203-220 | the loop over one fragment is the zero-run automaton |
| `ZeroRun.DetectorMeaning` | internal/jetkvm/video.go:203-220 | the automaton remembers exactly the trailing zeros (up to two) and whether a start code occurred |
| `ZeroRun.DetectorAgreesWithValidation` | internal/jetkvm/video.go:174-242 | over any fragmentation of a NAL unit it fires exactly when the reassembled unit would be rejected |
| `H264Assembler.PendingUnit.SequenceWithinReorderWindow` | internal/jetkvm/video.go:564-584 | the reorder window with and without a known start, across the 65535-to-0 wrap |
| `H264Assembler.PendingUnit.AdvanceNext` | internal/jetkvm/video.go:382-387 | `reorderNext` ends at the first missing sequence number; the loop terminates |
| `H264Assembler.PendingUnit.OrderedPackets` | internal/jetkvm/video.go:604-637 | the packets from the start to the marker in order, or incomplete, or too far apart |
| `H264Assembler.H264Stream.Process` | internal/jetkvm/video.go:321-428 | the buffered path for one packet, with its one recursive call |
| `H264Assembler.H264Stream.Drain` | internal/jetkvm/video.go:110-123 | the streaming path's entry |
| `H264Assembler.H264Stream.BeginWait` | internal/jetkvm/video.go:279-290 | a capture starting invalidates the unit being streamed |
| `H264Assembler.H264Stream.EndWait` | internal/jetkvm/video.go:292-296 | the end of waiting gives the pending unit up |
| `StreamSafety.ProcessKeeps` | internal/jetkvm/video.go:321-428 | the buffered path keeps the invariant, and an emitted candidate was made from a whole frame and the parameter sets retained at that moment |
| `StreamSafety.DrainKeeps` | internal/jetkvm/video.go:110-172 | the streaming path keeps the invariant |
| `StreamSafety.OrderedStartsAtExpected` | internal/jetkvm/video.go:604-637 | what is ordered is a contiguous run modulo 2^16 from the expected start to the marker |
| `StreamSafety.CompleteIsWhole` | internal/jetkvm/video.go:400-428 | a unit completed by its marker is a whole frame |
| `StreamSafety.TransitionIsWhole` | internal/jetkvm/video.go:430-468 | so is one completed by the next timestamp |
| `StreamRuns.EveryRunKeepsInvariant` | internal/jetkvm/video.go:102-562 | the invariant (anchor, history, parameter sets, stored packets, window) holds in every reachable state |
| `StreamRuns.EveryEmittedFrameIsWhole` | internal/jetkvm/video.go:400-562 | no headless or tailless frame: every candidate is one timestamp, contiguous, starts right after an observed packet of another timestamp and ends with a marker or right before another timestamp, all after the watermark; for parameter sets the frame lacks it uses those the stream holds once older units are given up or finished |
| `StreamRuns.BoundedMemory` | internal/jetkvm/video.go:321-483 | in every reachable state: byte counts exact and at most 4 MiB, at most 4096 packets, at most 64 distinct finished timestamps, parameter sets at most 64 KiB |
| `StreamRuns.CandidateSplits` | internal/jetkvm/video.go:833-880 | every candidate of every run splits at its start codes into SPS, PPS and the frame's other NAL units in order, the parameter sets being the frame's last or else the ones the stream had retained |
| `Confluence.NothingBeforeLastHole` | internal/jetkvm/video.go:321-428 | nothing is emitted and nothing but the pending unit changes before the last hole is filled |
| `Confluence.ReorderConfluence` | internal/jetkvm/video.go:321-428 | every admissible arrival order with duplicates ends in the same state, with the candidate emitted by the packet that fills the last hole and by no other |
| `Confluence.OrderDoesNotMatter` | internal/jetkvm/video.go:321-428 | two admissible orders give the same bytes, parameter sets, anchor and history |
| `Confluence.SameAsInOrder` | internal/jetkvm/video.go:321-428 | any admissible order gives what in-order arrival gives |
| `Transition.TransitionConfluence` | internal/jetkvm/video.go:430-468 | the same for a unit without a marker: whatever its admissible order and duplication, nothing is emitted before the packet that ends it, and that packet leaves the same state with the same candidate |
| `Transition.TransitionOrderDoesNotMatter` | internal/jetkvm/video.go:430-468 | two admissible orders of such a unit, followed by that packet, give the same candidate and the same state but for the number recorded with the candidate |
| `Confluence.LateCopyIgnored` | internal/jetkvm/video.go:497-527 | copies arriving after completion change nothing |
| `Confluence.IncompleteStaysPending` | internal/jetkvm/video.go:412-415 | a unit that lacks part of a fragmented NAL unit stays pending even when complete in number |
| `Fragments.CompletableIff` | internal/jetkvm/video.go:639-732 | a unit within the bounds is found incomplete if and only if a fragment without its start is reached before anything else is wrong, or everything fits and the last fragmented NAL unit has no end |
| `Fragments.LoneFragments` | internal/jetkvm/video.go:774-780 | two concrete units, in order and within every bound, that are never completed |
| `Fragments.BrokenBeforeOrphan` | internal/jetkvm/video.go:650-676 | a concrete unit that lacks the start of a fragment behind an invalid payload: it is complete, as a failed one |
| `DrainRefinement.PayloadStep` | internal/jetkvm/video.go:160-242 | one payload: the streaming state agrees with the depacketizer, being invalid exactly when that has failed or can only fail |
| `DrainRefinement.DrainIsFinished` | internal/jetkvm/video.go:110-277 | the streaming path leaves a unit, whatever its payloads, as the complete unit is retired |
| `DrainRefinement.StreamingRefinesBuffered` | internal/jetkvm/video.go:110-428 | streamed in order, a unit leaves exactly the state any admissible buffered order leaves with no candidate wanted |
| `DrainRefinement.StreamingAgreesIff` | internal/jetkvm/video.go:110-428 | in order the two paths leave the same state if and only if the unit lacks no part of a fragmented NAL unit in that sense |
| `VideoReceivers.VideoReceiver.Register` | internal/jetkvm/video_receiver.go:35-54 | the locked section of a capture: closed, busy, or registered with the current watermark |
| `VideoReceivers.VideoReceiver.Observe` | internal/jetkvm/video_receiver.go:69-95 | a packet is streamed, or buffered for the waiter, who gets at most one result; the send cannot block |
| `VideoReceivers.VideoReceiver.Close` | internal/jetkvm/video_receiver.go:119-136 | closing answers the waiter |
| `VideoReceivers.VideoReceiver.RemoveWaiter` | internal/jetkvm/video_receiver.go:138-145 | cancellation removes only the caller's own waiter |
| `ReceiverRuns.EveryInterleaving` | internal/jetkvm/video_receiver.go:35-145 | the receiver's invariant over every interleaving |
| `ReceiverRuns.CaptureFreshness` | internal/jetkvm/video_receiver.go:35-145 | a delivered frame contains only packets observed after its capture registered; no waiter means no pending unit; the registered waiter's channel is empty |
| `ReceiverRuns.AtMostOneResult` | internal/jetkvm/video_receiver.go:69-136 | a result once sent is never replaced |
| `DeviceOwners.DeviceOwner.RemoveQueued` | internal/jetkvm/device_owner.go:470-477 | a worker leaves the queue |
| `DeviceOwners.DeviceOwner.FailQueued` | internal/jetkvm/device_owner.go:478-486 | every queued worker is answered and forgotten |
| `DeviceOwners.DeviceOwner.StartNext` | internal/jetkvm/device_owner.go:516-555 | queued workers are handed to the session until it is seen taken over |
| `DeviceOwners.DeviceOwner.Consume` | internal/jetkvm/device_owner.go:608-1028 | one turn of the loop is the turn function the theorems are about |
| `OwnerSafety.TurnKeeps` | internal/jetkvm/device_owner.go:438-1029 | every command keeps the loop's invariant |
| `OwnerBooks.TurnLedger` | internal/jetkvm/device_owner.go:478-1028 | every command keeps each worker's account: accepted once, owed or answered once |
| `OwnerBooks.TurnCallers` | internal/jetkvm/device_owner.go:592-1028 | conservation of callers: a command answers, keeps or takes on each release, takeover and stop, and loses none |
| `OwnerTasks.TurnTasks` | internal/jetkvm/device_owner.go:438-1119 | conservation of goroutines: the loop awaits one more exactly when it starts one, one less exactly when it completes or its generation's end makes it pointless |
| `OwnerMoves.TurnTidy` | internal/jetkvm/device_owner.go:516-1028 | given the latch, no command leaves a queue behind that nothing will deal with |
| `OwnerRuns.LatchExcludes` | internal/jetkvm/manager.go:370-407 | while a release or takeover is under way the owner has no workers |
| `OwnerRuns.EveryRun` | internal/jetkvm/device_owner.go:438-1029 | the invariant of owner, sessions, goroutines and latch in every run |
| `OwnerRuns.SingleLiveSession` | internal/jetkvm/device_owner.go:488-895 | at most one of attempt, generation and cleanup; Connect starts only when every session obtained before has been closed |
| `OwnerRuns.NobodyStranded` | internal/jetkvm/device_owner.go:470-1028 | every worker owed a reply has something in flight that ends in one |
| `OwnerRuns.CallersAttended` | internal/jetkvm/device_owner.go:592-1028 | so has every release, takeover and stop that has not been answered |
| `OwnerRuns.AtMostOneReply` | internal/jetkvm/device_owner.go:470-1028 | nobody is answered twice, nobody else is answered |
| `OwnerRuns.NothingOwedAtExit` | internal/jetkvm/device_owner.go:592-606 | when the loop exits every accepted worker and every caller has had exactly one reply and nothing is still awaited |
| `OwnerLogs.TurnGrows` | internal/jetkvm/device_owner.go:438-1029 | what the loop has sent or started is never taken back |
| `OwnerProgress.NeverFarther` | internal/jetkvm/device_owner.go:516-1028 | no event takes a worker farther from its reply, and the end of what it waits for brings it strictly closer |
| `OwnerProgress.NobodyForgotten` | internal/jetkvm/device_owner.go:470-1028 | over whole runs: what each worker waits for is in flight, at most four such ends away from its reply, and then it has had exactly one |
| `OwnerCallers.ClaimCloser` | internal/jetkvm/device_owner.go:660-991 | no event takes a release or takeover farther from its answer, and the end of the attempt, validation, generation or cleanup it waits for brings it strictly closer |
| `OwnerCallers.StopCloser` | internal/jetkvm/device_owner.go:592-1028 | so with a stop, for which everything still outstanding counts |
| `OwnerCallers.NoCallerForgotten` | internal/jetkvm/device_owner.go:592-1028 | over whole runs, for every release, takeover and stop: the distance is zero if and only if it has had its one answer, never grows, and falls at each end of what it waits for |
| `OwnerOwnership.OwnershipMeaning` | internal/jetkvm/device_owner.go:702-748 | a live generation means Active; Active means a generation or an unfinished cleanup |
| `OwnerOwnership.StickyOwnership` | internal/jetkvm/device_owner.go:610-961 | once released, taken over or uncertain, no run without an explicit takeover connects or becomes idle or active |
| `OwnerTakeover.LateTakeoverWins` | internal/jetkvm/device_owner.go:772-895 | from a live generation on, in every order of session loss, recognition, validation and cleanup, ownership is active, uncertain or taken over, and in the end taken over |
| `OwnerTakeover.LateTakeoverWinsIff` | internal/jetkvm/device_owner.go:772-991 | for a live generation of any run, every undisturbed order ends in TakenOver if and only if no validation is in flight or the takeover is recognised already |
| `OwnerTakeover.EndIsNear` | internal/jetkvm/device_owner.go:1174-1195 | and it does end: each event of the generation's end leaves less to happen |
| `OwnerTakeover.ValidationHidesTakeover` | internal/jetkvm/device_owner.go:963-985 | otherwise this run is possible: the validation finds the session lost first, and the owner stays uncertain with nothing left to correct it |
| `OwnerTakeover.IdleExpiryLosesIff` | internal/jetkvm/device_owner.go:821-826 | an idle expiry loses the takeover, recognised or not, if and only if it finds the generation without workers, queue and demand; the owner then ends Idle |
| `OwnerTakeover.HiddenFromTheStart` | internal/jetkvm/device_owner.go:584-590 | the first failure in a run from a new owner |
| `OwnerTakeover.ExpiredFromTheStart` | internal/jetkvm/device_owner.go:821-870 | the second failure in a run from a new owner, with the takeover recognised before the lease runs out |
| `OwnerOwnership.RegisteredDuringCleanup` | internal/jetkvm/device_owner.go:610-638 | without the latch, a worker registered during a cleanup gets an attempt if and only if the cleanup was for idleness |
| `OwnerOwnership.ReleaseStrandsWithoutLatch` | internal/jetkvm/device_owner.go:897-924 | the owner alone reaches the state in which a release strands a worker |
| `OwnerStarts.LoopVerdictMeansNotStarted` | internal/jetkvm/device_owner.go:470-770 | a worker the loop itself answers was never started, one given its own result was started exactly once |
| `Admissions.Permits.TryAcquire` | internal/jetkvm/manager.go:680-689 | a permit is taken or refused at once |
| `Admissions.DeviceAdmission.BeginOrdinary` | internal/jetkvm/manager.go:636-660 | all permits or none, and the latch counted |
| `Admissions.DeviceAdmission.BeginLifecycle` | internal/jetkvm/manager.go:370-395 | the latch is taken only when nobody else is on the device |
| `AdmissionRuns.EveryInterleaving` | internal/jetkvm/manager.go:370-407 | every counter counts its holders in every interleaving |
| `AdmissionRuns.LatchExcludes` | internal/jetkvm/manager.go:662-678 | ordinary and lifecycle work exclude each other, limits hold, and nothing stays counted when nothing is under way |
| `FairGates.FairGate.Enter` | internal/jetkvm/scheduling.go:42-55 | enter at once or queue up |
| `FairGates.FairGate.Withdraw` | internal/jetkvm/scheduling.go:63-72 | a cancelled waiter leaves the queue if it is still there |
| `FairGates.FairGate.Release` | internal/jetkvm/scheduling.go:80-91 | the first waiter gets the gate, or it opens |
| `GateRuns.EveryInterleaving` | internal/jetkvm/scheduling.go:42-91 | the gate's invariant over every interleaving of arrivals, wake-ups, cancellations and releases |
| `GateRuns.FairAndExclusive` | internal/jetkvm/scheduling.go:42-91 | one holder; an open gate has no waiter; grants follow arrival order among those that did not cancel |
| `GateRuns.HandoffIsNeverLost` | internal/jetkvm/scheduling.go:57-77 | a held gate always has exactly one owner, which holds it or can go on by itself |
| `GateRuns.RacedCallOnlyReleases` | internal/jetkvm/scheduling.go:63-77 | a call whose cancellation raced with the handoff only passes the gate on |
| `GateOrder.ProgramRanked` | internal/jetkvm/scheduling.go:142-190 | every operation of every class acquires mutation, session, rpc and capture in that order and ends holding nothing |
| `GateOrder.NoDeadlock` | internal/jetkvm/scheduling.go:142-190 | however operations are scheduled, while one is unfinished some operation can go on |
| `RpcSessions.RpcSession.AddPending` | internal/jetkvm/rpc_session.go:172-183 | at most 64 pending, none after closing |
| `RpcSessions.RpcSession.HandleResponse` | internal/jetkvm/rpc_session.go:126-151 | a response is delivered to its own pending call only |
| `RpcSessions.RpcSession.Close` | internal/jetkvm/rpc_session.go:153-170 | every pending call finds the session closed, full slots keep what they have |
| `RpcRuns.EveryInterleaving` | internal/jetkvm/rpc_session.go:53-189 | the session's invariant over every interleaving of calls, responses, timeouts and close |
| `RpcRuns.Correlation` | internal/jetkvm/rpc_session.go:53-189 | at most 64 pending; a returned call leaves no entry; outcomes come from the call's own response or close; not_sent only if nothing reached the sender; one send token |
| `RpcRuns.ResolvedOnce` | internal/jetkvm/rpc_session.go:126-170 | a call's slot and its report never change once set |
| `JsonDecoders.Decoder.ConsumeUnique` | internal/jetkvm/rpc_codec.go:160-199 | the recursive reader is the recognizer function; it terminates on the remaining tokens |
| `JsonTokens.RecognizesUnique` | internal/jetkvm/rpc_codec.go:160-199 | on the tokens of any value followed by any suffix it succeeds if and only if no object at any depth repeats a name, and stops exactly at the suffix |
| `JsonTokens.AcceptedExactly` | internal/jetkvm/rpc_codec.go:160-199 | whatever the tokens, they are consumed to the end if and only if they are those of one value without repeated names |
| `JsonDecoders.UniqueValue` | internal/jetkvm/rpc_codec.go:151-158 | a frame, whatever its tokens, is accepted exactly when it is one value without repeated names |
| `RpcCodec.DecodeObjectMembers` | internal/jetkvm/rpc_codec.go:113-149 | first values kept; malformed exactly when a name repeats, is foreign, or a value repeats names; duplicate identifier flagged |
| `RpcCodec.DecodeRpcError` | internal/jetkvm/rpc_codec.go:94-111 | classification of an error member |
| `RpcCodec.DecodeRpcResponse` | internal/jetkvm/rpc_codec.go:53-92 | classification of a frame |
| `RpcCodec.AttributionIsExact` | internal/jetkvm/rpc_codec.go:53-92 | the exact shape of a frame that is attributed to a call |
| `RpcCodec.TakeoverIsExact` | internal/jetkvm/rpc_codec.go:65-77 | the exact shape of the notification that counts as a takeover |
| `HidReports.KeyboardReports` | internal/jetkvm/hid.go:110-134 | a text is accepted exactly when it is non-empty and every byte has a report |
| `HidReports.AcceptedBytes` | internal/jetkvm/hid.go:136-163 | exactly printable US-ASCII, tab, line feed and carriage return have one |
| `HidReports.ByteTyped` | internal/jetkvm/hid.go:136-163 | each report types its byte on a US layout, carriage return as Enter |
| `HidReports.TypingYieldsText` | internal/jetkvm/hid.go:46-72 | replaying the reports on a US-layout host yields the text and leaves no key down |
| `HidSessions.ScheduledSession.Keyboard` | internal/jetkvm/hid.go:46-72 | the keyboard loop with its arming and acknowledging |
| `HidSessions.ScheduledSession.Mouse` | internal/jetkvm/hid.go:74-101 | the mouse loop with its arming and acknowledging |
| `HidSessions.ScheduledSession.Finish` | internal/jetkvm/scheduling.go:221-233 | neutralization at the end, or its suppression after a takeover |
| `HidRuns.NothingStaysPressed` | internal/jetkvm/hid.go:46-101 | whatever calls fail, each press is followed before the rpc gate passes on by an acknowledged release, a neutralization attempt, or its suppression after a recognised takeover |
| `HidRuns.HidTruthful` | internal/jetkvm/hid.go:46-108 | if no single call that reports not_sent is on the wire, an operation that reports not_sent put nothing but the neutralization there |
| `HidRuns.TypedTextAppears` | internal/jetkvm/hid.go:46-72 | with every call succeeding the host shows exactly the text and no key is down |
| `Uploads.UploadLocalMedia` | internal/jetkvm/virtual_media.go:182-233 | the whole sequence |
| `UploadModel.UploadTruthful` | internal/jetkvm/virtual_media.go:182-256 | likewise an upload that reports not_sent deleted, started, sent and mounted nothing |
| `UploadModel.TransferCleansUp` | internal/jetkvm/virtual_media.go:196-220 | after the data may have gone out a failure asks for both artifacts to be deleted; success is exactly every request accepted |
| `Classifiers.ToolFailure` | internal/mcpserver/errors.go:61-100 | the tool result of an error |
| `Classifiers.ToolResultKeepsEvidence` | internal/mcpserver/errors.go:61-100 | not_sent comes out exactly when it went in; a mutation is never retryable |
| `Classifiers.RetryExactly` | internal/jetkvm/errors.go:36-75 | when a classified failure may be retried |
| `Classifiers.TerminalKeepsEvidence` | internal/jetkvm/device_owner.go:1121-1159 | the end of the session neither invents nor loses not_sent |
| `Honesty.AnswersReliable` | internal/jetkvm/rpc_session.go:53-124 | what the data channel reports as not sent was not handed to the sender, on every interleaving |
| `Honesty.NotSentIsTrue` | internal/jetkvm/device_owner.go:331-387 | across gates, operation, session end, owner and tool result: told not_sent, by the reply or by the loop's answer to the cancellation in that run, accepted or refused, no mutating request of the operation is on the wire |
| `Honesty.CancelAnswersTruth` | internal/jetkvm/device_owner.go:640-658 | after an accepted cancellation the worker has, then and ever after, exactly one reply, which is not its operation's, and the operation is never started |
| `Honesty.DoneArmHonestIff` | internal/jetkvm/device_owner.go:383-385 | in every run whose loop has exited, the arm that answers without reading the reply is honest about every possible execution if and only if the unread reply is not the operation's own |
| `Honesty.DoneArmMayLie` | internal/jetkvm/device_owner.go:383-385 | a run from a new owner, an execution and an interleaving of the data channel in which it is not |

## Left out

- Header fields of RTP packets that the assembler never reads are one opaque number; a packet that cannot be marshalled for comparison, and absent (nil) packets and receivers, are not modelled.
- Sequence and identifier counters that the code keeps in 64 bits (generations, workers, request identifiers) do not wrap here.
- Depacketizer.Unmarshal: the library's accumulator is described by section 5.8 of RFC 6184, not by its code.
- Picture-loss requests, telemetry, session references, snapshots for status (health, freshness, transition) and log events have no influence on results and are not modelled.
- Clocks are integers handed to each operation; timeouts and the idle lease are events that may come at any time, stale ones included.
- The reorder-window invariant says nothing about a pending unit whose anchor was cleared midway; such a unit is never emitted.
- Connect, the ping of a validation, operations and Close are environment events that return; a panic in any of them is not modelled.
- Answers to cancelled workers at the end of an attempt go out in the order of their numbers; the code's order is unspecified and not observable, since each goes to its own channel.
- DeviceOwners.DeviceOwner.Consume: the contexts that the code cancels when it stops, cleans up or cancels an operation only show in what the environment does next.
- Honesty.NotSentIsTrue: an operation is a keyboard or mouse operation, an upload, or a single request; virtual-media status, capture and power-target selection are not separate operations here.
- Refusals before a worker is registered (an ended context, the mutation gate, a failed preparation, an exhausted permit) hand nothing to any session and are not part of the runs.
- The HTTP request of an upload call is known only by how it ends: not built, not answered, answered badly, or accepted.
- Named keys and modifiers of key presses, coordinates and wheel values of mouse requests, and the mapping of text that is not US-ASCII beyond its refusal are not modelled.
- File hashing, path confinement and the comparison of files before and after an upload are findings of the environment.
- Frames over 16 KiB, the text form of JSON (whitespace, escapes, numbers that are not integers) and the marshalling of requests are not modelled; a frame arrives as a value or its tokens.
- The private text of errors and the messages of tool results are not modelled, only their codes, outcomes and retry flags.
- WebRTC, signaling, HTTP authentication, FFmpeg and PNG decoding, MCP schemas, configuration and command line are network I/O, external programs or wrappers.
