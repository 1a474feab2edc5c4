# Verified models of Clanky's protocols

This project models the stateful protocols and algorithms of Clanky that are hardest to get right by
inspection, and proves what they promise. Each module is one component:

- `MeshControl` and `MeshFraming`: the native Mesh harness proxy. Tool calls requested by a worker are
  admitted, run, cancelled and answered under two capacity limits with hand-rolled waiters; the event stream is
  a newline-framed, sequence-checked decoder.
- `HistoryReader`, `HistoryRuns` and `Collectors`: resumable history pages with single-use expiring cursors, what
  holds of them whatever callers and sources do, and the two collectors that turn a replayed event stream into
  completed history.
- `ImageSanitizer`, `Base64Gate` and `ImageProjection`: explicit-stack traversals of shared and cyclic object
  graphs, the bit-level base64 gate, and the projection of provider output into message events.
- `PreviewFlow`: the credit window of a previewed response, with both ends of the bridge and the browser.
- `ClientSockets`: admission, registration, revocation and shutdown of collaborator sockets.
- `FrontendUpdater` and `OtaPublish`: crash-safe installers behind an atomic selection file or pointer;
  `FrontendMetadata` is one example platform for the first.
- `AssetServer`: the listener start-up whose continuation must be resumed exactly once.
- `ImportClosure` and `SystemdQuoting`: the import closure of generated protocol files, and the quoting of
  systemd words.
- `Prelude` and `JsText` hold the small vocabulary they share.

Asynchronous code is cut at every point where it can be suspended; the code between two cuts is one atomic
step, written once as a function `Next(state, step)`. A run is any sequence of enabled steps, so theorems about
runs cover every interleaving. Each class holds the fields of the original object, and each of its methods is
proved to do exactly what `Next` says; the lemmas are about `Next`, and the table lists only those methods that
state more than one step. File systems are modelled write by write: in `OtaPublish` a crash may follow any
write, in `FrontendUpdater` every intermediate disk is recorded.

Results that differ from what one would expect of the code:

- A collaborator's realtime socket is rechecked only for the guest, not for workspaces. When a revocation of
  some workspaces resolves, exactly the realtime sockets registered after the call are left
  (`ClientSockets.RevokedIsClosed`; `ClientSockets.RealtimeOutlivesRevocation` is a run that leaves one).
- The count that admission compares is the number of distinct sockets plus that of the aborted attempts that
  close the socket they registered, which are counted twice (`ClientSockets.CountIsExact`). It exceeds 256 exactly
  when the two together do, never without such attempts, and reaches every value up to 512
  (`ClientSockets.CountCanExceedCapacity`); the number of distinct sockets never exceeds 256.
- The frontend updater encodes build metadata again when it installs a snapshot. A snapshot it has just
  selected can be restored exactly when that encoding still fits the limit for reading it;
  `FrontendMetadata.UnreadableMetadata` is a deployment of another revision for which it does not, so that the
  next start falls back to the snapshot before.
- `reconcile` accepts exactly when the pointer is at the release and its receipt is not torn
  (`OtaPublish.ReconcileAcceptsExactly`). A crash can leave it torn (`OtaPublish.TornReceiptIsReachable`), and
  then nothing ever repairs it (`OtaPublish.TornStays`).
- The history reader keeps its registrations exactly as long as every step is safe
  (`HistoryReader.RunKeepsInvExactly`); unsafe are reads during a waiting `forget` or `close`, and a source that
  fails to return after its end. Even then no reader is ever worked on twice at once, and pages stay complete and in
  order (`HistoryRuns.AlwaysExclusive`, `HistoryRuns.LastPageCompletes`).

The history reader would retire a reader a second time if its source failed to return after the last page. The
async generators that the backends use cannot do that, and `HistoryReader.RunKeepsInv` is stated for them;
`HistoryReader.SecondRetire` and `HistoryReader.StaleReturnLeavesCursor` say what a hand-written iterator could
cause, and `HistoryReader.StepKeepsInvExactly` says of every step when it is harmless.

## Model

| member | source | states |
|---|---|---|
| MeshControl.StepKeepsInv | src/backends/mesh-harness-backend.ts:137-338 | every step keeps slots and wake callbacks owned one-to-one, both control sets within 16, pending calls tracked, nobody asleep beside a free slot, and every admission accounted for |
| MeshControl.ReachableIsSafe | src/backends/mesh-harness-backend.ts:264-312 | in every interleaving both sets stay within 16, `control.result` is never refused for capacity, no id is answered or dropped more often than admitted, and a free reply slot leaves no waiter asleep |
| MeshControl.CancelledNeverAnswers | src/backends/mesh-harness-backend.ts:265-269 | a call aborted before its reply starts never sends one, whatever is scheduled afterwards |
| MeshControl.SomeStepEnabled | src/backends/mesh-harness-backend.ts:288-303 | deadlock freedom: while a call is tracked, some tool, reply or continuation can run |
| MeshControl.InternalStepsTerminate | src/backends/mesh-harness-backend.ts:288-310 | between outside events continuations cannot run forever |
| MeshControl.EveryScheduleAnswers | src/backends/mesh-harness-backend.ts:281-312 | every schedule of successful continuations that comes to rest answered exactly the calls that were not aborted, once each, and left all tables empty |
| MeshControl.DisconnectEmpties | src/backends/mesh-harness-backend.ts:691-709 | after `disconnect` aborted everything, whatever the tracked calls still do and the worker still requests or cancels, no further reply is sent, and at rest all tables are empty |
| MeshControl.ControlProxy.OnRequest | src/backends/mesh-harness-backend.ts:270-283 | admits exactly a new id while fewer than 16 calls are open; otherwise changes nothing |
| MeshControl.ControlProxy.WakeReplyWaiters | src/backends/mesh-harness-backend.ts:168-170 | the loop over callbacks wakes exactly the calls that own them |
| MeshFraming.Observe | src/backends/mesh-harness-backend.ts:340-471 | however the stream is cut into chunks, the loop does what the definition over the whole text does |
| MeshFraming.ObserveChunk | src/backends/mesh-harness-backend.ts:374-383 | one chunk: complete lines are processed in order, the rest is kept for the next chunk |
| MeshFraming.LongestValidPrefix | src/backends/mesh-harness-backend.ts:384-465 | events and ready calls are those of the longest prefix of frames numbered 0, 1, 2, ... and valid on the channel |
| MeshFraming.DispatchesLongestValidPrefix | src/backends/mesh-harness-backend.ts:365-465 | nothing is dispatched from or after a repeated, skipped or malformed frame, and only a fully valid stream ends as ended or incomplete |
| MeshFraming.FailureIsFinal | src/backends/mesh-harness-backend.ts:388-405 | after a failure no line has any effect |
| HistoryReader.StepKeepsInvExactly | src/backends/native-history-reader.ts:33-116 | a step keeps all invariants if and only if it is safe |
| HistoryReader.SecondRetire | src/backends/native-history-reader.ts:80-96 | retiring twice, after a finished source failed to return, is harmless if and only if no new read of the session is registered |
| HistoryReader.ForgetRetireKeepsInv | src/backends/native-history-reader.ts:99-103 | `forget` keeps the invariants if and only if nobody works on the session's reader |
| HistoryReader.CloseRetireExactly | src/backends/native-history-reader.ts:105-109 | `close` keeps the invariants if and only if no registered reader is worked on |
| HistoryReader.RunKeepsInvExactly | src/backends/native-history-reader.ts:33-116 | a run has the invariants throughout if and only if each of its steps is safe |
| HistoryReader.RunKeepsInv | src/backends/native-history-reader.ts:33-116 | callers that start no read while a `forget` of the session or a `close` waits, and async generators as sources, keep every step safe, however many of these waits overlap |
| HistoryReader.RegisteredIsInUse | src/backends/native-history-reader.ts:26-58 | then a cursor names a registered reader, and a registered reader is either parked or worked on |
| HistoryReader.CloseEmptiesEverything | src/backends/native-history-reader.ts:105-109 | and when `close`, having awaited the operations, retires the readers, no session, cursor or operation is left; their sources are awaited after that |
| HistoryRuns.AlwaysExclusive | src/backends/native-history-reader.ts:26-116 | in every run, whatever callers and sources do: at most 8 sessions; no two operations share a reader; no two cursors name the same reader; nobody works on a parked reader; returned batches are a prefix of the source |
| HistoryRuns.PagesAreBounded | src/backends/native-history-reader.ts:60-92 | in every run a page is whole batches in order, within 512 events and 1 MiB unless its events are one batch, and it is full, held back by the next batch, or the last |
| HistoryRuns.LastPageCompletes | src/backends/native-history-reader.ts:60-97 | in every run the pages up to the one without a cursor concatenate to exactly the batches of the source, none split, dropped or repeated |
| HistoryReader.ReopenedWhileClosing | src/backends/native-history-reader.ts:105-109 | a concrete run in which a read is started in a reader reopened while `close` waits, and loses its registration when that `close` goes on |
| HistoryReader.StaleReturnLeavesCursor | src/backends/native-history-reader.ts:80-96 | a concrete run with a hand-written source that fails to return after its end, which leaves a cursor behind `close` |
| HistoryReader.NativeHistoryReader.OnRead | src/backends/native-history-reader.ts:33-58 | starts a page exactly for a fresh cursor of the session or a new session below the limit; each refusal has its cause and changes nothing |
| HistoryReader.NativeHistoryReader.RetireSessions | src/backends/native-history-reader.ts:108-108 | retiring reader by reader clears all registrations and their cursors, as if at once |
| Collectors.UnmatchedIsLatest | src/backends/native-session-history.ts:20-37 | the start a completion answers is the last event about its tool call if that is a start, and there is none otherwise |
| Collectors.PrincipalHistoryIsPairs | src/backends/native-session-history.ts:38-48 | the principal history is adjacent start/complete pairs with equal id, envelope and input, one per completed message or tool, in order |
| Collectors.PrincipalInput | src/backends/native-session-history.ts:32-37 | a completed tool carries the input of its latest unmatched start, or its own if there is none |
| Collectors.ChildHistoryIsPaired | src/backends/native-subagent-history.ts:15-45 | every completion of a child stands next to its start, a tool next to the recorded one, and no start stands alone |
| Collectors.ChildHistoryIsComplete | src/backends/native-subagent-history.ts:15-36 | every completion and passed-on event of the child is in its history, in order and unchanged up to the input |
| Collectors.NativeSessionHistory.Append | src/backends/native-session-history.ts:12-49 | refuses exactly the events that make history incomplete, and keeps takes plus remainder equal to the history of the stream |
| Collectors.NativeSessionHistory.TakeEvents | src/backends/native-session-history.ts:51-53 | moves everything collected into the batch; batches concatenate to one final take |
| Collectors.NativeSubagentHistory.Append | src/backends/native-subagent-history.ts:15-36 | the same for the child collector and its own limits |
| Collectors.NativeSubagentHistory.TakeEvents | src/backends/native-subagent-history.ts:38-38 | moves everything collected into the batch |
| ImageSanitizer.SanitizeImagePayloads | src/backends/provider-image-output.ts:152-203 | terminates on every finite graph, cyclic and shared ones included, and returns what the recursive left-to-right definition with a threaded seen set returns |
| ImageSanitizer.ResumeVisits | src/backends/provider-image-output.ts:181-200 | pushing children in reverse makes the stack visit them in order |
| ImageSanitizer.SanIsClean | src/backends/provider-image-output.ts:63-77 | sanitized output holds no inline image and no image-payload record |
| ImageSanitizer.CleanIsFixed | src/backends/provider-image-output.ts:152-203 | sanitizing a clean tree returns it unchanged |
| ImageSanitizer.SanitizedIsCleanAndFixed | src/backends/provider-image-output.ts:218-221 | whatever the graph, output is clean and a second pass changes nothing |
| Base64Gate.AcceptsExactlyEncodings | src/backends/provider-image-output.ts:240-271 | the gate accepts a text if and only if it is the padded or unpadded canonical encoding of some non-empty byte string (sections 3.5 and 4 of RFC 4648) |
| Base64Gate.EqualBytesEqualBodies | src/backends/provider-image-output.ts:250-271 | two accepted texts with equal bytes differ in padding only |
| Base64Gate.DecodeEncode | src/backends/provider-image-output.ts:268-271 | decoding an encoding gives back the bytes |
| Base64Gate.EncodeDecode | src/backends/provider-image-output.ts:253-261 | encoding the bytes of a canonical text gives back the text |
| Base64Gate.AcceptedIsEncoding | src/shared/message-attachments.ts:49-52 | an accepted text has as many bytes as its length and padding declare, and encodes them |
| ImageProjection.CollectImageCandidates | src/backends/provider-image-output.ts:86-150 | the stack finds candidates and rejections of the recursive depth-first definition, each object once |
| ImageProjection.AttachmentIsFaithful | src/backends/provider-image-output.ts:233-286 | an attachment's data encode bytes that were recognized as its allowed type, and its size is theirs |
| ImageProjection.AcceptedInOrder | src/backends/provider-image-output.ts:314-335 | attachments belong to their candidates and keep candidate order |
| ImageProjection.AcceptedIsComplete | src/backends/provider-image-output.ts:314-323 | a candidate is missing only when it does not decode |
| ImageProjection.ProjectProviderImageOutput | src/backends/provider-image-output.ts:302-348 | attachments plus rejections equal candidates plus initial rejections; one start/complete pair per attachment, then a warning exactly if something was rejected; the output is redacted exactly if an image was found |
| ImageProjection.ProjectCandidates | src/backends/provider-image-output.ts:313-339 | the event loop with its rejection counter |
| PreviewFlow.StepKeepsInv | src/cli/preview.ts:479-556 | every step keeps the byte balance, the counters, the message order and the content of the response |
| PreviewFlow.ReachableIsSafe | src/cli/preview.ts:479-487 | acknowledged is at most consumed, consumed at most received, the queue stays within the window, every byte of the window is accounted for, and the browser has read a prefix of the body |
| PreviewFlow.GuardsNeverFire | src/core/preview-session-manager.ts:816-827 | a chunk never overflows the queue and an acknowledgement is never refused |
| PreviewFlow.FullCreditReturns | src/core/preview-session-manager.ts:1010-1024 | the sender has the whole window again if and only if everything sent was consumed and its acknowledgements arrived |
| PreviewFlow.DrainedIsComplete | src/cli/preview.ts:552-557 | a stream closed by the end of the response and drained has delivered the whole body |
| PreviewFlow.QuietIsComplete | src/core/preview-session-manager.ts:1010-1035 | a healthy response with nothing left to do is completely read: a sender short of credit is never stuck |
| PreviewFlow.EveryScheduleDelivers | src/core/preview-session-manager.ts:1003-1036 | every schedule takes a bounded number of steps and, at rest, delivered the body |
| PreviewFlow.EveryResponseDelivers | src/core/preview-session-manager.ts:984-1036 | the same from the start of any response |
| PreviewFlow.AcknowledgeExactly | src/cli/preview.ts:479-487 | an acknowledgement covers exactly what was consumed and not yet acknowledged |
| PreviewFlow.BodyFits | src/cli/preview.ts:538-551 | a chunk within the window is received, queued or read, and acknowledged without overflow |
| PreviewFlow.PendingPreviewRequest.OnBodyMessage | src/cli/preview.ts:538-551 | counting, enqueueing, acknowledging and the overflow branch |
| PreviewFlow.PendingPreviewRequest.AcknowledgeResponse | src/cli/preview.ts:479-487 | sends at most one acknowledgement and remembers it only if it was sent |
| PreviewFlow.PendingPreviewRequest.OnStart | src/cli/preview.ts:520-537 | the response gets its stream |
| PreviewFlow.PendingPreviewRequest.OnEnd | src/cli/preview.ts:552-557 | the request is no longer pending; a stream closes behind its queue |
| PreviewFlow.PendingPreviewRequest.OnFailure | src/cli/preview.ts:558-565 | the stream fails and its queue is dropped |
| PreviewFlow.ResponseSender.SendNext | src/core/preview-session-manager.ts:1008-1030 | the next chunk, at most 64 KiB, is paid for with credit |
| PreviewFlow.ResponseSender.OnAck | src/core/preview-session-manager.ts:816-828 | credit grows by a valid acknowledgement; any other aborts the request |
| ClientSockets.StepKeepsInv | src/api/workspace-client-sockets.ts:49-147 | every step keeps capacity, closing at most once, and the promises of running revocations and shutdowns |
| ClientSockets.ReachableIsBounded | src/api/workspace-client-sockets.ts:61-87 | at most 256 distinct sockets are opening or active, and no attachment is closed twice |
| ClientSockets.CountIsExact | src/api/workspace-client-sockets.ts:65-143 | active sockets plus the opening count are the distinct sockets plus the aborted attempts that close the socket they registered: at most 512, and at most 256 without such attempts |
| ClientSockets.AdmitsExactly | src/api/workspace-client-sockets.ts:63-68 | an open is admitted exactly while that sum is below 256 |
| ClientSockets.CountCanExceedCapacity | src/api/workspace-client-sockets.ts:65-140 | every count from 256 to 512 is reached |
| ClientSockets.StepAffects | src/api/workspace-client-sockets.ts:116-141 | under a withdrawn grant the affected sockets after a step are those before it that are still active, and the realtime socket it registers, if any, because recheck and registration are one step |
| ClientSockets.RunAffects | src/api/workspace-client-sockets.ts:89-147 | over a whole run under a withdrawn grant, exactly the realtime sockets registered in between are added and exactly the closed ones are gone |
| ClientSockets.RevokedIsClosed | src/api/workspace-client-sockets.ts:309-312 | when `revoke` resolves after a withdrawal that lasts, the guest's affected sockets are exactly the realtime sockets registered after the call and not closed yet, whatever opens were in flight |
| ClientSockets.WholeRevocationCloses | src/api/workspace-client-sockets.ts:309-312 | and none is left when the whole grant was withdrawn |
| ClientSockets.RevokedStaysClosed | src/api/workspace-client-sockets.ts:116-121 | from then on only realtime sockets are added while the grant stays withdrawn, and none if it is withdrawn as a whole |
| ClientSockets.RealtimeOutlivesRevocation | src/api/workspace-client-sockets.ts:116-117 | a concrete run in which a realtime open outlives the revocation of the guest's only workspace |
| ClientSockets.StoppedIsEmpty | src/api/workspace-client-sockets.ts:314-318 | when `stop` has resolved and nobody configured again, nothing is active or opening |
| ClientSockets.StoppedStaysEmpty | src/api/workspace-client-sockets.ts:56-67 | and nothing becomes active until the registry is configured again |
| ClientSockets.CleanupIsNeverStuck | src/api/workspace-client-sockets.ts:309-322 | when no continuation is left to run, every revocation and shutdown can go on |
| ClientSockets.WorkspaceClientSockets.OnOpen | src/api/workspace-client-sockets.ts:61-95 | admits exactly an open that is not aborted, while not stopping, below capacity; a refusal changes nothing |
| ClientSockets.WorkspaceClientSockets.CloseSockets | src/api/workspace-client-sockets.ts:320-322 | closing socket by socket, in any order, closes each once |
| FrontendUpdater.FrontendUpdater.Prepare | native/Shared/FrontendUpdater.swift:80-171 | returns the bundle, a saved snapshot verified in this run or a complete fresh one; the selected snapshot if it verifies, else its predecessor if that does, else the bundle is run or kept as the verified predecessor of what is run; no hash is downloaded twice; wherever the run is interrupted, the next start chooses what this one chose or the offered build; in every intermediate disk the old selection still names a verified snapshot, and the new selection does if and only if the metadata offered in this run can be read back |
| FrontendUpdater.FrontendUpdater.Restore | native/Shared/FrontendUpdater.swift:93-116 | the selected snapshot if it verifies, else its predecessor if that does, else the bundle, and the bundle if the selection is for another one |
| FrontendUpdater.FrontendUpdater.RemoveStaging | native/Shared/FrontendUpdater.swift:117-128 | touches only directories named `staging-` and a UUID |
| FrontendUpdater.FrontendUpdater.Deployment | native/Shared/FrontendUpdater.swift:173-178 | offers only valid metadata that decode from a download within 65,536 bytes |
| FrontendUpdater.FrontendUpdater.Update | native/Shared/FrontendUpdater.swift:130-170 | whatever fails leaves the running snapshot; success switches to a different, complete one and keeps the running one as its verified predecessor |
| FrontendUpdater.FrontendUpdater.Renew | native/Shared/FrontendUpdater.swift:144-165 | installs the offered build and selects it, with the old selection safe until the switch |
| FrontendUpdater.FrontendUpdater.Switch | native/Shared/FrontendUpdater.swift:148-165 | the selection names the new snapshot, and removing old ones spares it and its predecessor |
| FrontendUpdater.FrontendUpdater.Install | native/Shared/FrontendUpdater.swift:180-235 | touches only a directory whose name starts with `staging-` and the target, and leaves a complete snapshot under its manifest's hash |
| FrontendUpdater.FrontendUpdater.FillStaging | native/Shared/FrontendUpdater.swift:196-225 | every file is in place and verified; no hash is downloaded twice, nor one that an intact candidate stands for |
| FrontendUpdater.FrontendUpdater.PlaceFile | native/Shared/FrontendUpdater.swift:206-224 | one file from a verified copy or one verified download |
| FrontendUpdater.FrontendUpdater.MoveIntoPlace | native/Shared/FrontendUpdater.swift:229-233 | replaces the target by the staged directory |
| FrontendUpdater.FrontendUpdater.LoadSnapshot | native/Shared/FrontendUpdater.swift:237-248 | accepts exactly a directory with valid metadata, a decodable manifest and the required files |
| FrontendUpdater.FrontendUpdater.SavedAt | native/Shared/FrontendUpdater.swift:250-259 | accepts exactly a snapshot under its own hash whose every file verifies |
| FrontendUpdater.CheckFiles | native/Shared/FrontendUpdater.swift:278-294 | the single pass with paths, sizes and total accepts exactly the consistent file lists |
| FrontendUpdater.DecodeManifest | native/Shared/FrontendUpdater.swift:269-299 | accepts exactly an intact manifest that describes the build consistently |
| FrontendUpdater.SameSize | native/Shared/FrontendUpdater.swift:288-292 | in an accepted manifest a hash has one size, so a verified copy can stand for every file with that hash |
| FrontendUpdater.InstalledIsRestorable | native/Shared/FrontendUpdater.swift:226-259 | a fresh installation is restored as it is in later runs if its encoded metadata fit the limit for reading, and not at all otherwise |
| FrontendUpdater.SwitchedIsSafe | native/Shared/FrontendUpdater.swift:148-155 | selecting a complete installation is safe if and only if its metadata can be read back |
| FrontendMetadata.UnreadableMetadata | native/Shared/FrontendUpdater.swift:226-238 | an accepted deployment that differs from the running build and whose metadata outgrow the limit when encoded again: once selected as its replacement it is unsafe although the selection before was safe, and the next start runs the old build |
| FrontendUpdater.InstallingIsChosen | native/Shared/FrontendUpdater.swift:180-235 | an installation in another directory than the chosen one at most becomes the choice of the next start, even if it overwrites the selected snapshot or its predecessor |
| FrontendUpdater.SwitchedIsChosen | native/Shared/FrontendUpdater.swift:148-155 | after the switch the next start runs the new build or what was run before |
| FrontendUpdater.ExtendsSafely | native/Shared/FrontendUpdater.swift:196-234 | changes outside the active directory keep the selection safe at every point |
| OtaPublish.StepKeepsInv | scripts/ios-ota.py:350-615 | every write, crash and command keeps the pointer, releases, receipts, builds and the record of moves consistent |
| OtaPublish.PointerIsComplete | scripts/ios-ota.py:192-200 | after a crash at any write current.json names a complete release that `current` accepts |
| OtaPublish.ReleasesAreImmutable | scripts/ios-ota.py:509-527 | a complete release never changes again |
| OtaPublish.BuildNumbersRise | scripts/ios-ota.py:392-411 | in every run each publication has a build number above that of the build it replaces and at most 9999 |
| OtaPublish.NextBuildIsAbove | scripts/ios-ota.py:389-394 | the chosen build is above the source's and the baseline's, and refused exactly when one of them is malformed or 9999 |
| OtaPublish.VersionOfDecimal | scripts/ios-ota.py:149-152 | a positive number written in decimal is accepted if and only if it is at most 9999, and read back as itself |
| OtaPublish.MovesAreAChain | scripts/ios-ota.py:559-567 | each move of the pointer replaced exactly what the move before had put in place |
| OtaPublish.ReconcileWritesTheReceipt | scripts/ios-ota.py:580-596 | after the pointer moved, `reconcile` goes on to write a missing receipt, and its two writes leave exactly that of the move; it finds an existing one equal and in place, and refuses a torn one |
| OtaPublish.ReconcileAcceptsExactly | scripts/ios-ota.py:580-596 | `reconcile` accepts if and only if the pointer is at the release and its receipt is not torn |
| OtaPublish.TornStays | scripts/ios-ota.py:569-595 | in every run a torn receipt that no command is completing stays torn, and `reconcile` refuses it |
| OtaPublish.TornReceiptIsReachable | scripts/ios-ota.py:569-595 | a reachable state after a crash in which the receipt is torn, no command is completing it, and `reconcile` refuses it |
| OtaPublish.ReceiptsAreTrue | scripts/ios-ota.py:568-577 | every receipt is that of a move that happened |
| OtaPublish.RollbackExactly | scripts/ios-ota.py:599-612 | with a receipt and an earlier release, `rollback` is allowed if and only if the pointer is still where this publication put it |
| OtaPublish.RollbackRestores | scripts/ios-ota.py:613-615 | and restores exactly what the publication had replaced, a complete release |
| OtaPublish.PublishCompletes | scripts/ios-ota.py:544-570 | without a crash, a publication under an unused name ends with the signed package current and its receipt written |
| OtaPublish.HolderIsNeverStuck | scripts/ios-ota.py:559-569 | the command that holds the lock can always do its next write |
| OtaPublish.Installer.ReadCurrent | scripts/ios-ota.py:192-212 | reads and verifies what current.json names, or the legacy installer |
| OtaPublish.Installer.ChooseBuild | scripts/ios-ota.py:392-394 | the version choice |
| OtaPublish.Installer.BeginPublish | scripts/ios-ota.py:544-562 | the checks of `publish` and its lock |
| OtaPublish.Installer.BeginRollback | scripts/ios-ota.py:599-612 | the checks of `rollback` and its lock |
| OtaPublish.Installer.BeginReconcile | scripts/ios-ota.py:580-594 | without a lock, `reconcile` accepts exactly when everything agrees and the receipt is missing or equal, and goes on to write exactly a missing one |
| AssetServer.StepKeepsInv | native/Shared/AssetServer.swift:35-135 | whatever the framework reports in whatever order, every step keeps the state of calls, listeners and stops consistent |
| AssetServer.ResumedAtMostOnce | native/Shared/AssetServer.swift:45-106 | no continuation of `start` or `stop` is resumed twice, and a returned port is neither zero nor reserved |
| AssetServer.UnresumedHasTimer | native/Shared/AssetServer.swift:45-52 | a call that ran is unresumed if and only if exactly one of its listeners has a running timer |
| AssetServer.TimeoutResumes | native/Shared/AssetServer.swift:45-51 | and that timer resumes it exactly once |
| AssetServer.AtMostEightTries | native/Shared/AssetServer.swift:65-75 | at most eight listeners are tried, and one for a requested port |
| AssetServer.FailureAfterSuccess | native/Shared/AssetServer.swift:80-96 | `onFailure` is called at most once per listener and only after its call returned an address |
| AssetServer.StopWaitsForCancellation | native/Shared/AssetServer.swift:108-135 | every `stop` is resumed or waits for the cancellation of the one listener it took over |
| ImportClosure.Copier.Run | scripts/update-codex-protocol.ts:32-47 | terminates on cyclic imports; succeeds if and only if every reached file exists inside the output directory, and then has written exactly the reached files, each once |
| ImportClosure.Copier.Copy | scripts/update-codex-protocol.ts:33-46 | one call adds what the file newly reaches, closed under imports, or names a reached file that is missing or outside |
| ImportClosure.Copier.Write | scripts/update-codex-protocol.ts:43-45 | the target holds the content, and no other target changes |
| ImportClosure.CopiedIsReachable | scripts/update-codex-protocol.ts:39-47 | what was copied from nothing is exactly what the roots reach, and is closed under relative imports |
| ImportClosure.ClosedHoldsReachable | scripts/update-codex-protocol.ts:39-42 | a closed set that holds a file holds everything it reaches |
| ImportClosure.ImportsAreMatches | scripts/update-codex-protocol.ts:39-39 | every import found is a quoted relative name behind `from` in the content |
| ImportClosure.NoImportIsMissed | scripts/update-codex-protocol.ts:39-39 | every such name that no earlier match overlaps is found |
| ImportClosure.WalkStaysBelow | scripts/update-codex-protocol.ts:40-41 | a relative path that never goes up stays below its directory |
| SystemdQuoting.PassesAreOneMap | src/cli/systemd.ts:4-10 | the sequential replacements equal one map over characters |
| SystemdQuoting.RoundTrip | src/cli/systemd.ts:3-12 | any list of values survives rendering, joining with spaces, splitting, unquoting and undoing the doubled characters |
| SystemdQuoting.RenderingIsInjective | src/cli/systemd.ts:3-12 | two lists that render to the same line are the same list |
| SystemdQuoting.ReadToken | src/cli/systemd.ts:11-11 | a rendered token is read as exactly one word, whatever follows it |

## Left out

- Network transport, TLS, signing tools, real clocks, hashing and process spawning: their outcomes are parameters or arbitrary steps; hash verification is a function of the content.
- UTF-8 decoding and JSON parsing: `MeshFraming` takes decoded characters and a given total parser, `FrontendUpdater` takes given decoders.
- Provider image restoration and the omitted-image warnings in the event stream (src/backends/mesh-harness-backend.ts:427-453); the capacity of open interactions is part of the consumer that `MeshFraming.Source` takes as given.
- Reconnecting after `disconnect`, and the eight-request limit of other remote calls in the Mesh proxy.
- Own properties named `__proto__` and other exotic objects in `ImageSanitizer` and `ImageProjection`; numbers, booleans and null are one kind of atom.
- Identifiers, file names and digests of attachments, and the wording of the omission warning.
- HistoryReader.RunKeepsInv: assumes that no read is started for a session while a `forget` of it waits, or, after reopening, while a `close` waits (`HistoryReader.ReopenedWhileClosing` shows why), and that a source that reported its end returns without failing, as async generators do; `HistoryReader.RunKeepsInvExactly` and the theorems of `HistoryRuns` do not.
- Responses without a body in `PreviewFlow` (HEAD requests and statuses 204, 205 and 304), the buffered-amount limit of the bridge socket, and the request and socket counts of the command line client, whose check and insertion are apart.
- The proof, the transports and the frames of collaborator sockets in `ClientSockets`; the outcome of a verified proof is a parameter, and guest and node are identified.
- Directories, links and permissions in `FrontendUpdater` beyond "regular file or not"; download redirects.
- FrontendUpdater.FrontendUpdater.Prepare: does not promise that a new selection is safe when the offered metadata outgrow the reading limit once encoded, because the code installs those.
- `setup`, certificate creation and the HTTPS service of scripts/ios-ota.py; importing a legacy installer belongs to `setup`, so `OtaPublish` only models that publishing over one is refused. The configuration is a constant.
- Connections and the health check in `AssetServer`.
- The index file and the set of roots in scripts/update-codex-protocol.ts; `ImportClosure` takes any list of roots.
- The line structure of systemd unit files: `SystemdQuoting` reads one logical line, in which a newline inside quotes is an ordinary character.
- src/backends/harness-event-hub.ts, src/core/secret-coordinator.ts, HTTP routes, schemas and user interface code: dispatch and small tables whose properties read off one body.
