# Verification of the video analytics platform

A Dafny model of the four places of the platform where ordering, arithmetic and cleanup are hard to get right, with
proofs of what they promise.

**Analytics activation and the overlay** (`Mailboxes`, `Analytics`, `AnalyticsProtocol`, `AnalyticsProgress`, `Overlay`,
`OverlayProtocol`). The GUI thread, any number of frame submitters and one worker share a session whose activations
are identified by a stream run and a generation. The classes carry the critical sections; each is proved against a
function on the state. `AnalyticsProtocol` is the step relation over those functions: one step is one critical section
of the state mutex, the one access to the frame mailbox outside it, or a move between two of them. Signals are emitted
after the mutex is released, and slots may call the session again. `OverlayProtocol` composes this with the stream
protocol and the callbacks of the desktop client, and its main results hold for every interleaving. Safety alone would
also hold of a session that did nothing, so `AnalyticsProgress` says what an undisturbed thread brings about.

**YOLOX post-processing** (`Geometry`, `Suppression`, `Decoder`, `Detector`). The loops are methods over real numbers,
proved against an ordered specification; the algebra of the result is proved about the specification.

**Streaming runs** (`Stream`, `StreamWorker`, `StreamProtocol`). A session replaces stop tokens and queues runs; the
worker retries attempts within a budget and emits connection states; the GUI reads the latest frame. What the network
and the user do to a run is a script of attempts.

**The packet loop and the recorder** (`Recorder`, `RecordedFiles`, `StreamingService`, `StreamAttempts`,
`RecordingCommands`). What FFmpeg answers, and when commands and stop requests arrive, is a parameter. FFmpeg's
allocations are a set of live handles from which nothing can be freed twice.

`Sequences` and `Common` hold shared definitions. `dafny verify dfyconfig.toml` checks everything.

Where code and documentation differ, the model follows the code:

- docs/threading.md describes cancellation by an atomic flag; the code uses stop tokens.
- The connection diagram of docs/streaming-pipeline.md lacks two transitions: from Connecting to Disconnected, when a
  stop is seen before the first connection, and from Error to Connecting, when a run is started after one that gave up
  (`StreamProtocol.SessionFollowsDiagram`).
- docs/recording.md says that output I/O is closed at cleanup. For output formats that need no file it is not
  (`RecordedFiles.FilesAreClosedUnlessNotNeeded`); the desktop client only ever asks for `.mp4`, which needs one.

Some properties one might expect are false of the code. They are stated with the exact condition under which they hold:

- Recording commands take effect in the order given: only for orderly batches
  (`RecordingCommands.BatchIsFaithfulIffOrderly`, failing in `RecordingCommands.RestartWithinOnePassIsLost`).
- Every file opened for a recording is closed: not for formats that need no file
  (`RecordedFiles.FilesAreClosedUnlessNotNeeded`, failing in `RecordedFiles.FileCanStayOpen`).

One property is true of the services that exist but not of every service the worker's interface admits: a run ends in
Disconnected or Error exactly when its last attempt does not end, unstopped, for a reason the worker leaves silent
(`StreamWorker.RunRestsUnlessSilent`). The FFmpeg service never does that (`StreamAttempts.RealRunsSpeakTheLanguage`).

## Model

| member | source | states |
|---|---|---|
| OverlayProtocol.OverlayIsCurrentAfterTick | apps/desktop-client/src/bootstrap/application_bootstrap.cpp:188-263 | At the end of every timer tick that found stream and view model alive, in every interleaving, detections on display belong to the current, unstopped run and the current activation, the stream is Connected, and they were at most 750 ms old at that tick |
| OverlayProtocol.OverlayIsCurrentWhenShown | apps/desktop-client/src/bootstrap/application_bootstrap.cpp:137-186 | Whenever a result is put on display the same holds at that very moment |
| OverlayProtocol.FailureIsFinal | apps/desktop-client/src/bootstrap/application_bootstrap.cpp:121-135 | After an analytics failure was reported, in every continuation nothing is displayed and the session is off |
| OverlayProtocol.FailurePersists | apps/desktop-client/src/bootstrap/application_bootstrap.cpp:121-135 | No step of any run clears the failure |
| OverlayProtocol.NothingShownWithoutStream | apps/desktop-client/src/viewmodels/camera_stream_view_model.cpp:285-310 | Once the streaming session or the view model is gone nothing is on display |
| OverlayProtocol.DeliveredRevisionsRise | apps/desktop-client/src/bootstrap/application_bootstrap.cpp:228-259 | Results reach the overlay in strictly rising order of activation and, within one, of frame revision |
| OverlayProtocol.StepKeepsInv | apps/desktop-client/src/bootstrap/application_bootstrap.cpp:107-263 | Every step of the composed system keeps all invariants of both protocols and of the overlay |
| OverlayProtocol.DetectionsCanAppear | apps/desktop-client/src/bootstrap/application_bootstrap.cpp:137-263 | A run leads to a finished timer tick with a detection on display, so the statements about the display are not empty |
| OverlayProtocol.FailuresCanBeReported | apps/desktop-client/src/bootstrap/application_bootstrap.cpp:121-135 | A run leads to a reported failure, so the statements about failures are not empty |
| OverlayProtocol.TickLooksWhenConnected | apps/desktop-client/src/bootstrap/application_bootstrap.cpp:194-238 | While the stream is connected and nothing has failed every tick goes on to look at the current frame, under the activation of the current run |
| OverlayProtocol.TickCatchesUp | apps/desktop-client/src/bootstrap/application_bootstrap.cpp:238-251 | A tick that looks at a valid frame of the current run leaves with the revision of that frame, and submits it exactly if it is new |
| OverlayProtocol.SubmittedFrameIsPending | apps/desktop-client/src/bootstrap/application_bootstrap.cpp:258-259 | What a tick submits becomes pending while the activation is on |
| OverlayProtocol.CurrentResultIsDisplayed | apps/desktop-client/src/bootstrap/application_bootstrap.cpp:137-186 | A fresh result of the current, connected run is on display when its slot returns |
| OverlayProtocol.DisconnectionClears | apps/desktop-client/src/viewmodels/camera_stream_view_model.cpp:228-232 | Leaving Connected clears the display at once |
| Overlay.ResultMeaning | apps/desktop-client/src/bootstrap/application_bootstrap.cpp:143-186 | When a result is displayed, with the age limit of 750 ms in nanoseconds |
| Overlay.TickMeaning | apps/desktop-client/src/bootstrap/application_bootstrap.cpp:194-236 | The five ways of a tick and what each does to the overlay |
| Overlay.OverlayClient.OnError | apps/desktop-client/src/bootstrap/application_bootstrap.cpp:121-135 | New overlay state after the error callback |
| Overlay.OverlayClient.OnResult | apps/desktop-client/src/bootstrap/application_bootstrap.cpp:137-186 | The callback takes the latest result in any case, and displays it exactly when stream, run, activation and age allow |
| Overlay.OverlayClient.OnTimeout | apps/desktop-client/src/bootstrap/application_bootstrap.cpp:188-238 | A tick up to its look at the frame: which of five ways it goes, and what becomes of overlay and session; it fails only when activations are exhausted |
| Overlay.OverlayClient.OnFrame | apps/desktop-client/src/bootstrap/application_bootstrap.cpp:238-263 | A valid frame of the current run whose revision differs from the last is remembered and, if it is RGB888 and the session is on for this run and activation, becomes the pending frame with exactly that run, activation, revision, time and image; nothing changes otherwise |
| Overlay.OverlayClient.UpdateDetections | apps/desktop-client/src/viewmodels/camera_stream_view_model.cpp:323-340 | Detections of an empty image clear the display instead |
| Overlay.OverlayClient.ClearDetections | apps/desktop-client/src/viewmodels/camera_stream_view_model.cpp:342-351 | Clears the display |
| Overlay.OverlayClient.OnStateChanged | apps/desktop-client/src/viewmodels/camera_stream_view_model.cpp:228-232 | Any state but Connected clears the display |
| Overlay.OverlayClient.OnSessionDestroyed | apps/desktop-client/src/viewmodels/camera_stream_view_model.cpp:285-288 | The end of the session clears the display |
| AnalyticsProtocol.NotificationsCoalesce | modules/analytics-qt/src/analytics_result_mailbox.hpp:17-39 | In every reachable state one notification is queued or starting exactly when the mailbox says so, else none; a result with none under way has been announced |
| AnalyticsProtocol.NothingStaleIsHeld | modules/analytics-qt/src/analytics_session.cpp:179-192 | Whatever a mailbox holds is of the current activation, so takeLatestResult always hands out what it finds; an inactive session holds nothing |
| AnalyticsProtocol.ListenersKnowEnabled | modules/analytics-qt/src/analytics_session.cpp:100-150 | Outside an emission, what isEnabled returned at the last enabledChanged is still true, unless the failure of this activation is still queued, in which case the session is off |
| AnalyticsProtocol.OneErrorPerActivation | modules/analytics-qt/src/analytics_session.cpp:295-344 | An activation fails at most once and reports at most one error, and every error reported was posted by the worker |
| AnalyticsProtocol.ErrorsAreCurrent | modules/analytics-qt/src/analytics_session.cpp:321-341 | errorOccurred is emitted only while its activation is the current one and is off |
| AnalyticsProtocol.DeliveriesFollowAcceptance | modules/analytics-qt/src/analytics_session.cpp:161-293 | Delivered results are computed from accepted frames, in order of acceptance, each at most once |
| AnalyticsProtocol.ShutdownIsPrompt | modules/analytics-qt/src/analytics_session.cpp:194-262 | After a stop request the worker makes at most four more moves, starts at most one more detection and publishes at most one more result or failure, and is never stuck before it exits |
| AnalyticsProtocol.ShutdownStep | modules/analytics-qt/src/analytics_session.cpp:194-262 | The three bounds as ranks: no step raises them, and each worker move lowers the first |
| AnalyticsProtocol.StepKeepsInv | modules/analytics-qt/src/analytics_session.cpp:74-344 | Every step of GUI thread, submitters and worker keeps all invariants of the protocol |
| AnalyticsProtocol.TicketsStayOrdered | modules/analytics-qt/src/analytics_session.cpp:161-293 | Delivered < latest < in hand < pending, in order of acceptance, is kept by every step |
| AnalyticsProtocol.ObservedStaysCoherent | modules/analytics-qt/src/analytics_session.cpp:100-150 | Every step keeps listeners informed, up to announcements still outstanding |
| AnalyticsProtocol.NotifiesStayCounted | modules/analytics-qt/src/analytics_result_mailbox.hpp:17-59 | Every step keeps the number of notifications in step with the pending flag, across clear, re-enable and failure |
| AnalyticsProgress.PendingFrameIsAnalysed | modules/analytics-qt/src/analytics_session.cpp:194-293 | Nine moves of an undisturbed worker turn any pending frame of the activation into the latest result, with its identity, time and image size, and have it announced |
| AnalyticsProgress.ThrowingCallIsReported | modules/analytics-qt/src/analytics_session.cpp:213-260 | A call that throws costs the detector and, if the activation is still on, ends it and posts its failure |
| AnalyticsProgress.OnlyCurrentFramesAreWorkedOn | modules/analytics-qt/src/analytics_session.cpp:206-243 | Loading, detecting and publishing begin only for frames of the activation that is on at that moment |
| AnalyticsProgress.NotificationReachesListeners | modules/analytics-qt/src/analytics_session.cpp:276-291 | A queued notification reaches the listeners of resultAvailable if there is something to announce |
| AnalyticsProgress.FailureReachesListeners | modules/analytics-qt/src/analytics_session.cpp:308-323 | A queued failure that still stands is announced by enabledChanged |
| AnalyticsProgress.ErrorReachesListeners | modules/analytics-qt/src/analytics_session.cpp:325-341 | It is then reported by errorOccurred, unless the session was switched on again |
| Analytics.AnalyticsSession.Enable | modules/analytics-qt/src/analytics_session.cpp:100-131 | New activation with empty mailboxes; refused, without effect, when the counter is exhausted |
| Analytics.AnalyticsSession.Disable | modules/analytics-qt/src/analytics_session.cpp:132-150 | Off, with empty mailboxes |
| Analytics.AnalyticsSession.SubmitFrame | modules/analytics-qt/src/analytics_session.cpp:161-177 | Exactly RGB888 frames of the current activation are accepted; a pending one is replaced |
| Analytics.AnalyticsSession.TakeLatestResult | modules/analytics-qt/src/analytics_session.cpp:179-192 | Hands out the latest result if it is accepted, and empties the mailbox either way |
| Analytics.AnalyticsSession.WaitForFrame | modules/analytics-qt/src/analytics_session.cpp:201-204 | Takes the pending frame, or nothing when a stop was requested |
| Analytics.AnalyticsSession.PublishResult | modules/analytics-qt/src/analytics_session.cpp:264-293 | Stores an accepted result and queues a notification unless one is under way |
| Analytics.AnalyticsSession.ReportFailure | modules/analytics-qt/src/analytics_session.cpp:295-344 | An accepted failure turns the session off, empties it and queues the report |
| Analytics.AnalyticsSession.AcknowledgeNotification | modules/analytics-qt/src/analytics_session.cpp:276-291 | Ends the notification and tells whether there is something to announce |
| Analytics.AnalyticsSession.CheckFailure | modules/analytics-qt/src/analytics_session.cpp:310-339 | Whether a reported failure still describes the current activation |
| Analytics.AnalyticsSession.AcceptsIdentity | modules/analytics-qt/src/analytics_session.cpp:74-81 | The staleness check |
| Mailboxes.FrameMailbox.Submit | modules/analytics-qt/src/analytics_mailbox.hpp:17-27 | The newest frame replaces an older one |
| Mailboxes.FrameMailbox.WaitAndTake | modules/analytics-qt/src/analytics_mailbox.hpp:29-51 | A stop request has priority over a pending frame |
| Mailboxes.FrameMailbox.Clear | modules/analytics-qt/src/analytics_mailbox.hpp:53-57 | Drops the pending frame |
| Mailboxes.ResultMailbox.Publish | modules/analytics-qt/src/analytics_result_mailbox.hpp:15-28 | Whether a notification must be queued: exactly when none is under way |
| Mailboxes.ResultMailbox.AcknowledgeNotification | modules/analytics-qt/src/analytics_result_mailbox.hpp:30-39 | Ends the notification, keeps the result |
| Mailboxes.ResultMailbox.TakeLatest | modules/analytics-qt/src/analytics_result_mailbox.hpp:41-50 | Empties the mailbox, keeps the notification |
| Mailboxes.ResultMailbox.Clear | modules/analytics-qt/src/analytics_result_mailbox.hpp:52-59 | A queued notification outlives the result |
| Suppression.NmsCharacterised | modules/analytics/src/detection/onnx/yolox_postprocessing.cpp:148-192 | Any stable sort and any kernel of it yield the result of applyNms: no two kept boxes of a class overlap above the threshold, and every dropped one is overlapped by an earlier kept one of its class |
| Suppression.GreedyIsUniqueKernel | modules/analytics/src/detection/onnx/yolox_postprocessing.cpp:169-191 | The positions kept by the greedy loop are the one and only kernel of the sorted list |
| Suppression.StableSortUnique | modules/analytics/src/detection/onnx/yolox_postprocessing.cpp:160-167 | The sort is the only list that descends by score and keeps the order of ties |
| Suppression.ApplyNms | modules/analytics/src/detection/onnx/yolox_postprocessing.cpp:148-192 | The kept boxes are candidates by falling score; two of a class have IoU at most the threshold; each one dropped has IoU above it with a kept box of its class that is at least as strong; thresholds outside [0, 1] are refused |
| Suppression.NmsSeparatesAndCovers | modules/analytics/src/detection/onnx/yolox_postprocessing.cpp:160-191 | The same of the specified result |
| Suppression.NmsIdempotent | modules/analytics/src/detection/onnx/yolox_postprocessing.cpp:148-192 | Suppressing the result again changes nothing |
| Suppression.NmsPerClass | modules/analytics/src/detection/onnx/yolox_postprocessing.cpp:174-185 | Restricting the result to a class is running on that class alone |
| Suppression.NmsPermutationInvariant | modules/analytics/src/detection/onnx/yolox_postprocessing.cpp:160-191 | With pairwise distinct scores every permutation of the input has the same result |
| Suppression.NmsDependsOnTieOrderOnly | modules/analytics/src/detection/onnx/yolox_postprocessing.cpp:160-167 | Only the relative order of equal scores in the input can matter |
| Suppression.NmsCommutesWithScoreThreshold | modules/analytics/src/detection/onnx/yolox_postprocessing.cpp:160-191 | Dropping weak candidates before or after suppression is the same |
| Suppression.SortCommutesWithFilter | modules/analytics/src/detection/onnx/yolox_postprocessing.cpp:160-167 | Stable sorting commutes with every filter |
| Suppression.NmsScales | modules/analytics/src/detection/onnx/yolox_postprocessing.cpp:113-192 | Scaling all boxes scales the result |
| Geometry.IouIsIntersectionOverUnion | modules/analytics/src/detection/onnx/yolox_postprocessing.cpp:117-145 | The value: for boxes that share points, the area of the box of all shared points divided by the sum of the areas less that area |
| Geometry.SharedPointMeansIntersection | modules/analytics/src/detection/onnx/yolox_postprocessing.cpp:117-135 | Such a box exists whenever a point is shared |
| Geometry.IouIsZeroWithoutSharedPoint | modules/analytics/src/detection/onnx/yolox_postprocessing.cpp:128-145 | Zero when no interior point is shared, also for boxes without size |
| Geometry.IouSymmetric | modules/analytics/src/detection/onnx/yolox_postprocessing.cpp:113-146 | Symmetric |
| Geometry.IouRange | modules/analytics/src/detection/onnx/yolox_postprocessing.cpp:113-146 | Between 0 and 1 for boxes of positive size |
| Geometry.IouIsOneIffIdentical | modules/analytics/src/detection/onnx/yolox_postprocessing.cpp:113-146 | Equal to 1 exactly for identical boxes |
| Geometry.IouIsPositiveIffSharedPoint | modules/analytics/src/detection/onnx/yolox_postprocessing.cpp:113-146 | Positive exactly when the boxes share an interior point |
| Geometry.IouTranslationInvariant | modules/analytics/src/detection/onnx/yolox_postprocessing.cpp:113-146 | Invariant under translation |
| Geometry.IouScaleInvariant | modules/analytics/src/detection/onnx/yolox_postprocessing.cpp:113-146 | Invariant under positive scaling |
| Decoder.DecodeDetections | modules/analytics/src/detection/onnx/yolox_postprocessing.cpp:13-111 | For any input size and strides: each detection is what one candidate of the buffer says about its grid cell, in order of candidates; every candidate that contributes nothing has no class of positive score at the threshold; malformed arguments are refused |
| Decoder.DecodeRowsYield | modules/analytics/src/detection/onnx/yolox_postprocessing.cpp:39-105 | The same of the specified result for any number of candidates, by induction |
| Decoder.DecodeRowMeaning | modules/analytics/src/detection/onnx/yolox_postprocessing.cpp:53-105 | What one row says: side and center of the box, scaled back, are those predicted relative to the cell, and the class is the first of greatest positive score, at least the threshold |
| Decoder.DecodeGrid | modules/analytics/src/detection/onnx/yolox_postprocessing.cpp:41-107 | The two inner loops visit the rows of one stride in order and leave the row counter at the next stride |
| Decoder.CellsAndRowsCorrespond | modules/analytics/src/detection/onnx/yolox_postprocessing.cpp:39-51 | Grid cells and candidate rows correspond one to one: no row is visited twice or left out |
| Decoder.FindBestClass | modules/analytics/src/detection/onnx/yolox_postprocessing.cpp:53-67 | The class chosen is the lowest-numbered one of maximal score, and none when no score is positive |
| Decoder.BestClassIsArgMax | modules/analytics/src/detection/onnx/yolox_postprocessing.cpp:53-67 | That description determines the class and its score, independently of the threshold |
| Decoder.DecodeCandidate | modules/analytics/src/detection/onnx/yolox_postprocessing.cpp:53-105 | One row contributes the box it predicts and its best class, or nothing, exactly when no class has a positive score at the threshold |
| Decoder.DecodedBoxIsPositive | modules/analytics/src/detection/onnx/yolox_postprocessing.cpp:72-103 | For any positive exponential every decoded box has positive sides: in exact arithmetic the last check rejects nothing |
| Decoder.DecodeCommutesWithThreshold | modules/analytics/src/detection/onnx/yolox_postprocessing.cpp:69-70 | Decoding with a higher threshold is filtering what a lower one decodes |
| Decoder.DecodeScales | modules/analytics/src/detection/onnx/yolox_postprocessing.cpp:72-89 | Decoding at k times the image scale divides every box by k and changes nothing else |
| Decoder.ComputeCandidateCount | modules/analytics/src/detection/onnx/yolox_model_spec.hpp:17-28 | The loop sums the cells of all grids |
| Decoder.YoloxNanoHas3549Candidates | modules/analytics/src/detection/onnx/yolox_model_spec.hpp:9-30 | 3549 candidates of 85 values for the shipped model |
| Detector.Detect | modules/analytics/src/detection/onnx/onnx_yolox_detector.cpp:192-201 | Decoding followed by suppression, with refusals passed on: every detection reaches the score threshold, and two of a class have IoU at most the NMS threshold |
| Detector.ScoreThresholdCommutes | modules/analytics/src/detection/onnx/onnx_yolox_detector.cpp:192-201 | For 0 <= t1 <= t2 <= 1 detection at t2 is detection at t1 filtered by t2 |
| Detector.ImageScaleCommutes | modules/analytics/src/detection/onnx/onnx_yolox_detector.cpp:192-201 | Detection at k times the image scale yields the same detections with boxes divided by k |
| StreamProtocol.CurrentFrameIsOfCurrentRun | modules/streaming/src/session/streaming_session.cpp:156-173 | A frame handed to the GUI was emitted by the stream call of the current, unstopped run, for the address requested last |
| StreamProtocol.RunsAreIsolated | modules/streaming/src/session/streaming_session.cpp:91-117 | Every earlier run has a triggered stop token; runs are executed in strictly rising order |
| StreamProtocol.OlderRunMayPublishLate | modules/streaming/src/worker/streaming_worker.cpp:29-38 | An older run can still publish after a new start; the GUI then obtains no frame |
| StreamProtocol.PublishedFrameIsCurrent | modules/streaming/src/session/streaming_session.cpp:156-165 | A frame published by the current, unstopped run is what the GUI obtains, with a new revision |
| StreamProtocol.ConnectedRunPublishes | modules/streaming/src/worker/streaming_worker.cpp:29-38 | A connected run can publish any number of frames |
| StreamProtocol.FramesMoveForward | modules/streaming/src/frame/frame_exchange.cpp:8-20 | No step puts back a frame of an older run or a lower revision |
| StreamProtocol.SessionSignalsChanges | modules/streaming/src/session/streaming_session.cpp:175-181 | The session emits the stutter-free image of what the runs emitted, and every finished run emitted a word of the language |
| StreamProtocol.SessionRests | modules/streaming/src/session/streaming_session.cpp:175-181 | With no run in execution and all signals handled the session is Disconnected or in Error |
| StreamProtocol.SessionFollowsDiagram | docs/streaming-pipeline.md:139-151 | In every reachable state the signals of the session follow the documented transition diagram with two more edges |
| StreamProtocol.ConnectingCanEnd | modules/streaming/src/worker/streaming_worker.cpp:85-88 | One of the two, Connecting to Disconnected, is taken by a concrete run: a stop before the first connection |
| StreamProtocol.ErrorCanBeFollowedByConnecting | modules/streaming/src/worker/streaming_worker.cpp:59-76 | The other, Error to Connecting, is taken by a concrete run: a new start after giving up |
| StreamProtocol.SupersededRunStaysSilent | modules/streaming/src/worker/streaming_worker.cpp:51-55 | In every reachable state a run whose stop came before its execution has emitted nothing or just Disconnected, can publish no frame, and is over exactly when it has emitted |
| StreamProtocol.StepKeepsInv | modules/streaming/src/session/streaming_session.cpp:91-181 | Every step of GUI and streaming thread keeps all invariants of the stream protocol |
| StreamProtocol.DestutterEnds | modules/streaming/src/session/streaming_session.cpp:175-181 | The stutter-free image repeats no state and ends where the signals end |
| StreamWorker.StreamingWorker.Start | modules/streaming/src/worker/streaming_worker.cpp:47-89 | A run makes exactly the attempts of its script up to the first that is not retried, and emits exactly their word |
| StreamWorker.StreamingWorker.Loop | modules/streaming/src/worker/streaming_worker.cpp:62-83 | The loop makes exactly those attempts, in order, and emits what they emit |
| StreamWorker.StreamingWorker.HandleExit | modules/streaming/src/worker/streaming_worker.cpp:67-82 | The loop body after an attempt: retry, give up or stop, and the states emitted |
| StreamWorker.RunsEndUnlessTheyKeepConnecting | modules/streaming/src/worker/streaming_worker.cpp:62-83 | A run ends unless every attempt is retried, and no number bounds the connections of an endless run: with finitely many, connections and retries left fall lexicographically |
| StreamWorker.StreamingWorker.TryOnce | modules/streaming/src/worker/streaming_worker.cpp:62-83 | One pass: whether the loop goes on, the retry counter, and the states emitted, for every place where a stop can be seen |
| StreamWorker.StreamingWorker.HandleExitReason | modules/streaming/src/worker/streaming_worker.cpp:91-115 | Which reasons are retried and what each emits |
| StreamWorker.StreamingWorker.OnConnected | modules/streaming/src/worker/streaming_worker.cpp:20-27 | A connection resets the retry counter |
| StreamWorker.ReconnectPolicy.RecordRetry | modules/streaming/src/reconnect/reconnect_policy.cpp:24-27 | Counts a retry |
| StreamWorker.ReconnectPolicy.Reset | modules/streaming/src/reconnect/reconnect_policy.cpp:29-32 | Forgets all retries |
| StreamWorker.AttemptBound | modules/streaming/src/worker/streaming_worker.cpp:59-83 | With c connections a run makes at most (maxRetries + 1) + maxRetries * c attempts, and the counter never exceeds maxRetries |
| StreamWorker.AttemptBoundIsTight | modules/streaming/src/worker/streaming_worker.cpp:59-83 | For every positive budget and every c some run makes exactly that many |
| StreamWorker.RetriedBound | modules/streaming/src/reconnect/reconnect_policy.cpp:14-32 | The bound for the attempts so far |
| StreamWorker.LanguageExact | modules/streaming/src/worker/streaming_worker.cpp:47-115 | A word is emitted by some run of the real service exactly when it is in the language: Connecting, per attempt an optional Connected and Reconnecting, and at the end Error, Disconnected or both |
| StreamWorker.LanguageSound | modules/streaming/src/worker/streaming_worker.cpp:47-115 | Every run of the real service stays in the language |
| StreamWorker.CompleteEnds | modules/streaming/src/worker/streaming_worker.cpp:73-88 | Every word of the language ends in Disconnected or Error |
| StreamWorker.RunRestsUnlessSilent | modules/streaming/src/worker/streaming_worker.cpp:91-115 | For an arbitrary service a run ends in Disconnected or Error exactly when its last attempt does not end, unstopped, for a reason the worker leaves silent |
| Stream.StreamingSession.Start | modules/streaming/src/session/streaming_session.cpp:91-117 | Stops the previous run and queues the next one; refused when the run counter is exhausted |
| Stream.StreamingSession.Stop | modules/streaming/src/session/streaming_session.cpp:119-124 | Triggers the stop token of the current run only |
| Stream.StreamingSession.GetCurrentFrame | modules/streaming/src/session/streaming_session.cpp:156-165 | The latest frame if it is of the active run, else none |
| Stream.StreamingSession.GetStreamRunId | modules/streaming/src/session/streaming_session.cpp:167-173 | Zero when no run is active |
| Stream.StreamingSession.OnStateChanged | modules/streaming/src/session/streaming_session.cpp:175-181 | Repeated states are not signalled |
| Stream.FrameExchange.Publish | modules/streaming/src/frame/frame_exchange.cpp:8-20 | The snapshot is replaced as a whole and its revision rises by one |
| RecordedFiles.FilesHoldWhatWasSeen | modules/streaming/src/recording/ffmpeg_recording_service.cpp:62-217 | After any sequence of requests, stops and packets: each file ended by a stop is one successful header, exactly the video packets from the first keyframe after its request up to the stop, and one trailer; only the last file may be cut short, without trailer, and only when the recorder is in Error; the spans of the files do not overlap |
| RecordedFiles.ResourcesFollowState | modules/streaming/src/recording/ffmpeg_recording_service.cpp:112-176 | Starting has a request and an input but no output, Recording an open output with its header, Stopped and Error nothing |
| RecordedFiles.TransitionsFollowDiagram | docs/streaming-pipeline.md:123-133 | Exactly when each transition of the documented recorder diagram is taken; Stopping is never seen between operations |
| RecordedFiles.ErrorIsAbsorbing | modules/streaming/src/recording/ffmpeg_recording_service.cpp:35-95 | In Error no request, stop or packet has any effect |
| RecordedFiles.StopReleasesEverything | modules/streaming/src/recording/ffmpeg_recording_service.cpp:62-95 | After a stop the recorder is Stopped or in Error, holds nothing, and every output has been freed |
| RecordedFiles.FilesAreClosedUnlessNotNeeded | modules/streaming/src/recording/ffmpeg_recording_service.cpp:304-321 | The file opened for an output is closed by the time the output is freed, exactly unless it was opened for a format that needs no file |
| RecordedFiles.FileCanStayOpen | modules/streaming/src/recording/ffmpeg_recording_service.cpp:269-321 | Such a file does stay open: a concrete run |
| RecordedFiles.PacketKeepsInv | modules/streaming/src/recording/ffmpeg_recording_service.cpp:112-302 | A packet, whatever FFmpeg answers, keeps all invariants of the recorder |
| RecordedFiles.StopKeepsInv | modules/streaming/src/recording/ffmpeg_recording_service.cpp:62-95 | So does a stop |
| RecordedFiles.RequestKeepsInv | modules/streaming/src/recording/ffmpeg_recording_service.cpp:35-60 | So does a request |
| Recorder.RequestMeaning | modules/streaming/src/recording/ffmpeg_recording_service.cpp:35-60 | A request is granted exactly to an idle recorder that is given a path; what it stores |
| Recorder.StopMeaning | modules/streaming/src/recording/ffmpeg_recording_service.cpp:62-95 | Stopping a recording attempts the trailer and ends the file; stopping a request drops it |
| Recorder.PacketMeaning | modules/streaming/src/recording/ffmpeg_recording_service.cpp:112-176 | When a packet starts a recording and under which path, when it is written, and when the recorder gives up |
| Recorder.OpeningMeaning | modules/streaming/src/recording/ffmpeg_recording_service.cpp:219-302 | The result names the first call that failed |
| Recorder.RecordingService.RequestRecording | modules/streaming/src/recording/ffmpeg_recording_service.cpp:35-60 | New state and answer, including both refusals |
| Recorder.RecordingService.StopRecording | modules/streaming/src/recording/ffmpeg_recording_service.cpp:62-95 | New state for each state it may find |
| Recorder.RecordingService.HandleVideoPacket | modules/streaming/src/recording/ffmpeg_recording_service.cpp:112-176 | New state for each state and each combination of answers |
| Recorder.RecordingService.WritePacket | modules/streaming/src/recording/ffmpeg_recording_service.cpp:178-217 | Succeeds exactly when an output is open and both calls succeed; what was logged |
| Recorder.RecordingService.InitializeRecording | modules/streaming/src/recording/ffmpeg_recording_service.cpp:219-302 | The result names the first call that failed, and the output is freed again in that case |
| Recorder.RecordingService.CleanupOutputContext | modules/streaming/src/recording/ffmpeg_recording_service.cpp:304-321 | The output is freed, its file closed unless the format needs none |
| Recorder.RecordingService.Cleanup | modules/streaming/src/recording/ffmpeg_recording_service.cpp:323-330 | Everything is released and the state is Stopped |
| StreamingService.StreamingService.Stream | modules/streaming/src/services/ffmpeg/ffmpeg_streaming_service.cpp:57-111 | At entry and exit all four handles are null and nothing allocated is live; the recorder, the pending commands and the emitted signals end as specified; the exit reason |
| StreamingService.StreamingService.ReadPackets | modules/streaming/src/services/ffmpeg/ffmpeg_streaming_service.cpp:88-98 | The packet loop makes exactly the specified passes |
| StreamingService.StreamingService.InitializeEverything | modules/streaming/src/services/ffmpeg/ffmpeg_streaming_service.cpp:412-439 | Succeeds exactly when every call succeeds and a video stream exists; after each failure what is live is what the handles hold |
| StreamingService.StreamingService.OpenInput | modules/streaming/src/services/ffmpeg/ffmpeg_streaming_service.cpp:158-215 | A failed opening leaves nothing allocated, although FFmpeg and the caller both free |
| StreamingService.StreamingService.ReadStreamInfo | modules/streaming/src/services/ffmpeg/ffmpeg_streaming_service.cpp:217-241 | A failure closes the input |
| StreamingService.StreamingService.FindVideoStream | modules/streaming/src/services/ffmpeg/ffmpeg_streaming_service.cpp:243-262 | Finds the first video stream, or reports that there is none |
| StreamingService.StreamingService.CreateCodecContext | modules/streaming/src/services/ffmpeg/ffmpeg_streaming_service.cpp:264-296 | A failure leaves no codec context |
| StreamingService.StreamingService.OpenDecoder | modules/streaming/src/services/ffmpeg/ffmpeg_streaming_service.cpp:298-351 | A failure frees the codec context |
| StreamingService.StreamingService.InitializeDecoder | modules/streaming/src/services/ffmpeg/ffmpeg_streaming_service.cpp:353-374 | A failure also closes the input |
| StreamingService.StreamingService.InitializePacket | modules/streaming/src/services/ffmpeg/ffmpeg_streaming_service.cpp:376-392 | Allocation of the packet |
| StreamingService.StreamingService.InitializeFrame | modules/streaming/src/services/ffmpeg/ffmpeg_streaming_service.cpp:394-410 | Allocation of the frame |
| StreamingService.StreamingService.ProcessPendingCommands | modules/streaming/src/services/ffmpeg/ffmpeg_streaming_service.cpp:674-711 | At most one start, then at most one stop, and what is announced |
| StreamingService.StreamingService.ReadNextPacket | modules/streaming/src/services/ffmpeg/ffmpeg_streaming_service.cpp:441-504 | A packet of the video stream, and no other, goes to the recorder; exactly a change of its state is announced |
| StreamingService.StreamingService.EnqueueStartRecording | modules/streaming/src/services/ffmpeg/ffmpeg_streaming_service.cpp:118-123 | The first pending start wins |
| StreamingService.StreamingService.EnqueueStopRecording | modules/streaming/src/services/ffmpeg/ffmpeg_streaming_service.cpp:125-130 | A pending stop stays |
| StreamingService.StreamingService.Cleanup | modules/streaming/src/services/ffmpeg/ffmpeg_streaming_service.cpp:645-661 | The recorder lets go of the input before it is closed; its state is announced; every handle is freed once |
| StreamingService.StreamingService.CleanupInput | modules/streaming/src/services/ffmpeg/ffmpeg_streaming_service.cpp:615-622 | Requires that the recorder no longer refers to the input |
| StreamingService.StreamingService.CleanupDecoder | modules/streaming/src/services/ffmpeg/ffmpeg_streaming_service.cpp:624-632 | Frees the codec context |
| StreamingService.StreamingService.CleanupPacket | modules/streaming/src/services/ffmpeg/ffmpeg_streaming_service.cpp:604-613 | Frees the packet |
| StreamingService.StreamingService.CleanupFrame | modules/streaming/src/services/ffmpeg/ffmpeg_streaming_service.cpp:634-643 | Frees the frame |
| StreamAttempts.RecordingsBelongToOneAttempt | modules/streaming/src/services/ffmpeg/ffmpeg_streaming_service.cpp:90-104 | An attempt leaves earlier files untouched, and each file it adds is sound with respect to the video packets of this attempt alone |
| StreamAttempts.EveryFileBelongsToOneAttempt | modules/streaming/src/services/ffmpeg/ffmpeg_streaming_service.cpp:57-111 | Over any history of commands and attempts every file was made in exactly one attempt, and is sound with respect to the video packets of that attempt alone |
| StreamAttempts.SignalsFollowDiagram | docs/streaming-pipeline.md:123-133 | Over any history, between attempts and at every head of the packet loop, the recording states announced repeat themselves or follow the documented diagram |
| StreamAttempts.StateIsAnnounced | modules/streaming/src/services/ffmpeg/ffmpeg_streaming_service.cpp:645-711 | Over any history of commands and attempts, at every head of the packet loop and after every attempt, the state last announced is that of the recorder and its resources fit its state; after an attempt it holds nothing |
| StreamAttempts.EveryLoopHead | modules/streaming/src/services/ffmpeg/ffmpeg_streaming_service.cpp:90-98 | At every head of the packet loop the recorder refers to no input but the open one, and all its invariants hold |
| StreamAttempts.PassesEndAtStopOrFailure | modules/streaming/src/services/ffmpeg/ffmpeg_streaming_service.cpp:90-98 | The packet loop makes exactly the passes before the first failed read or the first head at which a stop is requested |
| StreamAttempts.NothingIsReadAfterStop | modules/streaming/src/services/ffmpeg/ffmpeg_streaming_service.cpp:90-98 | Once a stop is requested no pass begins: nothing that could have been read or commanded after it has any effect, and its instant bounds the packets read |
| StreamAttempts.ErrorOutlivesAttempts | modules/streaming/src/services/ffmpeg/ffmpeg_streaming_service.cpp:57-111 | A recorder in Error stays there over all later attempts and commands, and its files do not change |
| StreamAttempts.ExitReasonsAreGenuine | modules/streaming/src/services/ffmpeg/ffmpeg_streaming_service.cpp:57-111 | An attempt connects at most once, is Cancelled exactly when a stop was requested before it returned, and otherwise ends with the reason the language of the worker presupposes |
| StreamAttempts.RealRunsSpeakTheLanguage | modules/streaming/src/worker/streaming_worker.cpp:47-89 | The retry loop over the FFmpeg service: from any state of the service, whatever the courses of the attempts, a run emits a word of the language and so ends in Disconnected or Error |
| StreamAttempts.AttemptEndsAtRest | modules/streaming/src/services/ffmpeg/ffmpeg_streaming_service.cpp:645-661 | Between attempts the recorder is Stopped or in Error |
| RecordingCommands.BatchIsFaithfulIffOrderly | modules/streaming/src/services/ffmpeg/ffmpeg_streaming_service.cpp:674-711 | The loop takes commands as one start and one stop, in this order; the recorder ends as if the commands had been executed in the order given exactly when it is in Error, or no usable start follows the last stop, or, without a stop, it is not idle, or there is no usable start, or the first start is usable |
| RecordingCommands.RestartWithinOnePassIsLost | modules/streaming/src/services/ffmpeg/ffmpeg_streaming_service.cpp:674-711 | Stopping and restarting within one pass of the loop loses the restart |
| RecordingCommands.StopEndsTheBatch | modules/streaming/src/services/ffmpeg/ffmpeg_streaming_service.cpp:704-710 | A batch with a stop leaves the recorder Stopped or in Error, holding nothing |
| RecordingCommands.InOrderIs | modules/streaming/src/recording/ffmpeg_recording_service.cpp:35-95 | What executing commands one by one amounts to |

## Left out

- Floating-point rounding, infinities and NaN: all arithmetic is exact, so the `isfinite` guards of the post-processing have no counterpart.
- The exponential function: any function with positive values.
- Image preparation, model loading and configuration checks of the detector; thresholds are assumed to have passed them.
- FFmpeg, OpenCV, ONNX Runtime and Qt internals: each call is an answer that may be success or failure.
- AnalyticsProtocol.StepKeepsInv: does not model the destruction of the session from one of its own slots, nested event loops, or error texts.
- AnalyticsProtocol.ShutdownIsPrompt: counts worker moves and assumes that loading and running the detector return.
- Taking a frame while the state mutex is held elsewhere: enabling, disabling and submitting are single steps, since a take in the middle of one has the same effect as a take just before it.
- Overlay.OverlayClient.OnTimeout: the exception thrown when activations are exhausted ends the tick; what Qt does with it is not modelled, and the protocol does not take that step.
- Wrap-around of the 64-bit frame revision and of the packet and frame counters.
- Labels, colours and scaling of the displayed detections; the display holds the result itself.
- The view model beyond clearing and updating detections, QML, list models and the image provider.
- StreamWorker.StreamingWorker.Start: requires that the run ends, as it has no final state otherwise; which runs end is StreamWorker.RunsEndUnlessTheyKeepConnecting.
- StreamWorker.StreamingWorker.Loop: requires the same.
- StreamingService.StreamingService.Stream: the packets an attempt can read are finitely many; the loop heads of an endless attempt are covered by StreamAttempts.EveryLoopHead.
- Decoding, pixel conversion and frame emission inside the packet loop, and the reference counts of packets and frames.
- Timestamps written to the output, codec parameters and time bases.
- Stream statistics, recording duration, logging and the retry delay.
- The threads' start and end, the destructors, and the queue between GUI and streaming thread other than its order.
- Camera repositories, validators, the application service, the streaming manager and demo programs: they pass requests on and store records, without ordering or arithmetic of their own.
