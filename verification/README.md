# ADAS accident engine: a verified model

The system watches traffic cameras for accidents. An inference engine samples
every camera at a fixed cadence, collects per-frame detections into evidence
and reports an accident once a place has enough of it. The moment it does, the
camera is paused (the *self-blindfold*) and the event is written to a durable
outbox, which a worker delivers to the backend. A supervisor reconciles the
running cameras with snapshots from the backend that may be out of date. A GPU
kernel prepares NV12 frames for the detector in fixed-point arithmetic. On the
backend, a sliding-window limiter protects the login, and a maintenance job
publishes and prunes database backups.

This project models those parts in Dafny and proves what they promise over
whole runs.

## How it is organised

Code that updates objects step by step is modelled as classes and methods with
loops, each proved equal to a function on values; the properties are lemmas
about those functions. Code made of expressions is modelled as functions.

| files | part |
|---|---|
| `Boxes`, `Evidence`, `Accumulate`, `Regions`, `EvidenceRuns` | the accumulator: its step as a function, the classes that perform it, what every region's evidence means |
| `Corroboration`, `Linkage`, `Lifecycle`, `Cadence`, `Drift`, `Effects` | bounds on events, greedy linking, firing once, independence of the frame rate, moving boxes, what one frame does and what an event says |
| `Config`, `History`, `Registry`, `Tightness` | the registry that discards evidence at stream, segment and time gaps, over runs on all cameras; a run that attains the bound |
| `Readers`, `Window`, `Rate`, `Cameras` | the GPU queue and the software slot, the rolling rate, both reader classes |
| `Isolation`, `Pipeline`, `PipelineRun` | fault isolation and the tick; three ticks that report a wreck |
| `Reconcile`, `Supervisor` | the reconciliation plan and its application |
| `OutboxModel`, `OutboxSpacing`, `Outbox`, `Delivery` | the outbox directory with a crash between any two file operations; what a delivery and a pass come to |
| `Protocol` | detection, reconciliation and delivery interleaved, with restarts |
| `Nv12`, `Resample`, `Bilinear`, `Letterbox` | colour conversion, fixed-point resizing and what it approximates, padding geometry and the kernel |
| `Limiter` | the sliding-window limiter |
| `BackupModel`, `BackupRuns`, `BackupOutcomes`, `RetentionRules`, `Backup` | backup publication, fallback and retention; what an attempt leaves and reports, and what retention spares |

Each region of the accumulator carries a ghost identity and a log with one
entry per frame; the algorithm reads neither. Time, confidences, boxes and rates
are exact reals. Each step of a thread is atomic; where interleaving is the
point (the protocol) the steps are as fine as the threads' observable actions:
a tick collects, pauses and queues in separate steps, and the supervisor decides
and applies in separate steps.

## What the code does not promise

The model follows the code. Where a promise is broader than the code, the
lemma states the exact condition.

- *A reader's frame may belong to a closed segment.* The GPU queue is emptied
  whenever a segment opens; the software slot is not, so after pause and resume
  it can deliver a frame of the old segment (`Readers.SlotDiscipline`,
  `Readers.SlotCanBeStale`).
- *The blindfold is lost by a start.* `START` does not look at the pending
  events, so a restart of the process followed by a stale "Active" snapshot runs
  a camera whose event is still queued (`Protocol.RestartForgets`). Three
  interleavings lose it too: a heartbeat between the pause and the queueing that
  resumes the camera (`Protocol.HeartbeatInBetweenResumes`), a plan decided before
  a detection and applied after it that restarts the camera unpaused
  (`Protocol.StalePlanUnpauses`), and a restart between the moment a tick
  collects a stream object and the moment it pauses it
  (`Protocol.RestartInTickEscapes`). `Protocol.StepKeepsIff` gives the exact
  condition step by step, for the steps of that model, and each camera is judged
  by its own steps only.
- *An event can be lost in quarantine.* A file that cannot be read while it is
  being moved aside is kept without its payload (`OutboxModel.UnreadEventIsLost`;
  `OutboxModel.RunsConserve` says this is the only way).
- *A retry is not always spaced.* An attempt that is not marked leaves the event
  due at once: when the process stops between the post and its mark
  (`OutboxSpacing.StopBeforeMarkRepeats`), when the file is no longer UTF-8 by the
  time it is to be marked, and on every attempt from the 1024th on, because
  `2.0 * 2 ** attempts` raises once the power no longer fits a float
  (`OutboxSpacing.MarkedIff`). `OutboxSpacing.SpacedIff` reads off the record
  whether the spacing holds.
- *`retry_after` is tight only in part.* With more failures held than
  the limit it is too short, since it looks at the oldest failure and not at the
  one that has to expire (`Limiter.RetryAfterIsLeast`,
  `Limiter.RetryAfterTooShort`). With a limit of zero or less and no failure in
  the window, `check` raises (`Limiter.RaisesIff`, `Limiter.FirstCheckRaises`).
- *An attempt can publish two backups.* When retention in the protected root
  raises something other than an operating-system error after the protected point
  is published, the attempt goes on to the local root. A second, degraded point
  then appears if the local try publishes a valid one too and retention has taken
  neither (`BackupOutcomes.TwoNewPointsIff`). What makes retention raise so: a
  manifest or a state file in the protected root that is not UTF-8, a record whose
  checks are null, a status that is a list (`BackupRuns.UnreadableManifestDoubles`,
  `BackupRuns.UnreadableStateDoubles`).
- *Retention in the protected root does not see the active restore.* It reads the
  state file of that root, while restores record theirs in the local one
  (`BackupRuns.LocalRestoreIsIgnored`, `BackupRuns.ProtectedPointGoesIff`,
  `BackupRuns.RequestedPointIsPruned`).
- *A failed attempt may have published.* The local point is in place when retention
  in the local root does not run to its end, in a scheduled or manual backup
  (`BackupRuns.FailedAttemptPublishes`) and in a pre-restore one
  (`BackupOutcomes.FailedEmergencyPublishes`). A protected point stands when
  retention there raised and the local root then failed
  (`BackupOutcomes.FailedTargetsPublish`) or was not reached, because looking for
  temporary files raised (`BackupOutcomes.FailedSweepPublishes`).
  `BackupOutcomes.FailedWithNewPointIff` is the exact condition.
- *A healthy camera can be isolated for good.* When the batched call raises, for
  whatever reason, and then the camera's own call raises for a reason that has
  passed a moment later, the camera is excluded like one with a poisoned frame
  (`Isolation.HealthyIsIsolated`; `Isolation.HealthyIsolatedIff` is exact).
- *One file that is not UTF-8 stops reconciliation.* Loading it raises an error the
  outbox does not handle, so it is neither delivered nor moved aside
  (`OutboxModel.GarbledStays`), and every heartbeat's scan of the outbox raises
  before the snapshot is looked at (`Supervisor.CameraSupervisor.HeartbeatOnce`).
- *The cooldown is dead*, as a note in the code says; it is so for every
  timestamp (`Lifecycle.CooldownIsDead`).

## Model

| member | source | states |
|---|---|---|
| Boxes.IouLaws | ai_engine/accumulate.py:27-35 | the overlap score is symmetric for any boxes; for ordered boxes it lies between 0 and 1 and is 1 exactly for equal boxes of positive area |
| Boxes.IouIsShare | ai_engine/accumulate.py:27-35 | the score is zero if and only if no box with an area lies inside both boxes, and otherwise the area of the largest such box over the area the two cover together |
| Boxes.SmoothStaysInside | ai_engine/accumulate.py:107 | smoothing keeps ordered boxes ordered and every edge inside any range that holds both inputs |
| Boxes.SmoothFixpoint | ai_engine/accumulate.py:107 | smoothing a box with itself changes nothing, whatever the weight |
| Accumulate.Accumulator.FindBest | ai_engine/accumulate.py:88-94 | the scan settles on the region the greedy rule chooses |
| Accumulate.Accumulator.LinkBox | ai_engine/accumulate.py:87-110 | one detection in place: the best unmatched region gains it, or a new region appears; nothing else changes |
| Accumulate.Accumulator.LinkDetections | ai_engine/accumulate.py:87-110 | all detections of a frame, paired up to the shorter list |
| Accumulate.Accumulator.SettleRegion | ai_engine/accumulate.py:112-126 | leak when unmatched, then fire or not |
| Accumulate.Accumulator.SettleRegions | ai_engine/accumulate.py:112-134 | every region settled in order, one rounded event for each that fires |
| Accumulate.Accumulator.DropSpent | ai_engine/accumulate.py:136 | exactly the regions with evidence left, or fired, stay, in order |
| Accumulate.Accumulator.Update | ai_engine/accumulate.py:77-137 | the whole method is one step of the value model: new state and reported events |
| Accumulate.Accumulator.Reset | ai_engine/accumulate.py:139-141 | no regions, no previous time |
| Regions.LinkAllKeeps | ai_engine/accumulate.py:87-110 | linking adds exactly one hit, taken from the frame, to each matched region and leaves the others alone |
| Regions.FiringsAre | ai_engine/accumulate.py:124-134 | the regions that fire are exactly those that cross the threshold on this frame |
| Regions.SurvivorsAre | ai_engine/accumulate.py:136 | a region survives the frame if and only if it has evidence or has fired; identities stay in order |
| EvidenceRuns.ExactEvidence | ai_engine/accumulate.py:87-136 | after any frames each unfired region's score is exactly the confidence times time of the frames that matched it minus the leak of those that did not, strictly between 0 and the threshold: the clamp at 0 never shows |
| EvidenceRuns.EventsAreJust | ai_engine/accumulate.py:112-134 | every region that fires does so on such an exact balance that has reached the threshold |
| Corroboration.BalanceBounded | ai_engine/accumulate.py:94-113 | however hits and misses fall, a balance is at most the largest confidence times the elapsed time |
| Corroboration.EventNeedsDuration | ai_engine/accumulate.py:77-136 | an event's unrounded score is at most peak confidence times its age plus one gap |
| Corroboration.EventNeedsTwoFrames | ai_engine/config.py:133-155 | where a gap is worth less than the threshold, two frames at different times each support every region that fires |
| History.RegistryHoldsRecent | ai_engine/pipeline.py:34-78 | after any operations on any cameras the registry holds for a camera exactly what a fresh accumulator makes of that camera's unbroken recent frames |
| History.RecentIsOneSegment | ai_engine/pipeline.py:34-72 | that history is one stream object, one segment and no gap above 0.5 s, and the registry's last time is the accumulator's |
| History.FiredOnRecent | ai_engine/pipeline.py:201-207 | what fires on a tick is what a fresh accumulator fires on the last of those frames |
| History.NoLoneFrameFires | ai_engine/pipeline.py:57-72 | over every run on every camera, a region that fires is at least 0.5 s old, within peak confidence times age plus one gap, and supported by two frames of the same stream and segment at different times |
| Registry.AccumulatorRegistry.ResolveCamera | ai_engine/pipeline.py:34-55 | keeps the accumulator of an unbroken stream, else starts afresh; other cameras are untouched |
| Registry.AccumulatorRegistry.ObserveFrame | ai_engine/pipeline.py:201-207 | resolve then update, as one operation of the history |
| Registry.AccumulatorRegistry.PruneCameras | ai_engine/pipeline.py:74-78 | exactly the live cameras keep their entries |
| Tightness.HalfSecondIsAttained | ai_engine/config.py:133-155 | a run that meets every assumption of the bound in which an event comes at exactly 0.5 s: no larger age can be promised |
| Linkage.BestMatchIsGreedy | ai_engine/accumulate.py:88-94 | the chosen region is unmatched, reaches the link threshold and no unmatched region overlaps more; none is chosen only if none reaches it |
| Linkage.LinkingIsGreedy | ai_engine/accumulate.py:87-110 | every detection of a frame goes to such a region or creates one |
| Linkage.OneRegionEach | ai_engine/accumulate.py:87-110 | a frame matches or creates exactly as many regions as it has pairs: linking is injective |
| Linkage.RegionBoxInHull | ai_engine/accumulate.py:107 | over any run a region's box is ordered if its detections were and stays inside any range that holds all of them |
| Effects.EveryDetectionCounts | ai_engine/accumulate.py:87-110 | whatever else a frame shows, each detection with a confidence is the latest entry of a region, which is held unless it has no evidence |
| Effects.QuietFrame | ai_engine/accumulate.py:112-136 | on a frame that shows nothing every region keeps all but the leaked evidence, and goes exactly when none is left and it has not fired |
| Effects.EventsSay | ai_engine/accumulate.py:124-134 | over every run each event field is what the region's log says: its smoothed box, its evidence and largest confidence to three digits, its age to two |
| Effects.BoxConverges | ai_engine/accumulate.py:107 | each further sighting of one box leaves the rest of the smoothing weight of the distance to it |
| Lifecycle.StepFates | ai_engine/accumulate.py:124-136 | a fired region stays fired; one that fires now had not |
| Lifecycle.FiresOnce | ai_engine/accumulate.py:115-136 | over a whole run no region fires twice, and fired regions are never dropped |
| Lifecycle.FiringsDistinct | ai_engine/accumulate.py:112-134 | within one frame the regions that fire are distinct |
| Lifecycle.CooldownIsDead | ai_engine/accumulate.py:115-126 | two accumulators that differ only in the cooldown report the same events on every frame of every run |
| Cadence.StepFromNothing | ai_engine/accumulate.py:95-102 | a first detection after a gap fires alone exactly when confidence times the gap reaches the threshold: the reason for the gap rule |
| Cadence.FiresWhenLinked | ai_engine/accumulate.py:77-136 | a detection that overlaps its region on every frame fires exactly once, on the first frame where confidence times elapsed time has reached the threshold, whatever the frame spacing |
| Cadence.FiresOnElapsedTime | ai_engine/accumulate.py:77-136 | a box that stays put fires exactly once, on the first frame where confidence times elapsed time has reached the threshold, whatever the frame spacing, and never if none does |
| Drift.DriftFires | ai_engine/accumulate.py:77-136 | so does a box that moves, in any direction, at most the smoothing weight's part of a shift under which two such boxes still overlap enough |
| Drift.MovingBoxFires | ai_engine/config.py:133-155 | as deployed, a box of a hundred pixels that moves one pixel a frame fires on its third |
| Readers.QueueStepSound | ai_engine/gpu_camera.py:382-411 | each ingest, read, pause, resume or reconnect keeps the queue bounded, of one segment and in order |
| Readers.IngestIsQueued | ai_engine/gpu_camera.py:573-583 | every decoded frame joins the end of the queue, and only the oldest goes, only when the queue was full |
| Readers.QueueDiscipline | ai_engine/gpu_camera.py:243-279 | so does every interleaving of them: delivered frames are an in-order subsequence of the ingested ones without repeats |
| Readers.SlotDiscipline | ai_engine/camera.py:79-95 | the slot delivers each frame at most once, the newest first, and carries the current segment if and only if no segment opened since |
| Readers.SlotCanBeStale | ai_engine/camera.py:86-95 | a run in which the software slot holds a frame of a closed segment and the queue holds none |
| Readers.IngestIsHeld | ai_engine/camera.py:194-233 | a reader that is not paused holds each frame it decodes until it is read or replaced |
| Readers.ReadersFollow | ai_engine/camera.py:79-95 | both readers number their segments by the resumes and connections so far and are paused exactly when the last pause was not followed by a resume |
| Cameras.CameraStream.Pause | ai_engine/camera.py:79-84 | pauses, clears the measurement, shows the paused status, leaves slot and segment |
| Cameras.CameraStream.Resume | ai_engine/camera.py:86-95 | opens a segment, restarts the measurement, keeps the slot |
| Cameras.CameraStream.OnConnected | ai_engine/camera.py:185-192 | opens a segment on a new connection; a paused reader stays paused |
| Cameras.CameraStream.Decode | ai_engine/camera.py:194-233 | one turn of the loop: a frame is published and counted unless paused, a failed grab or read is recorded |
| Cameras.CameraStream.RecordFrameDecoded | ai_engine/camera.py:112-123 | the decode times of the last five seconds and the rate over the time they span |
| Rate.DecodedIsWindow | ai_engine/camera.py:112-118 | over a whole history of decoded frames the deque holds exactly those of the last five seconds |
| Rate.DecodeRateIsSteady | ai_engine/camera.py:112-123 | whatever came before, once the frames of the last five seconds are at a steady period its rate is shown exactly |
| Rate.SteadyDecodeRate | ai_engine/camera.py:112-123 | a stream at a steady period shows exactly its rate from the second frame on if the period is at most five seconds, and never shows one otherwise |
| Cameras.CameraStream.ReadFrame | ai_engine/camera.py:235-245 | destructive read of the slot |
| Cameras.CameraStream.RecordInference | ai_engine/camera.py:131-137 | one completion recorded in the rolling window |
| Cameras.CameraStream.CurrentInferenceFps | ai_engine/camera.py:139-151 | the answer of the rate model, pruning on the way |
| Cameras.ReportsNeedResume | ai_engine/pipeline.py:221-224 | in every history in which a stream is reported on only while unpaused, and a report pauses it, two reports have a resume between them; both reader classes keep such a history |
| Cameras.GpuCameraStream.Pause | ai_engine/gpu_camera.py:236-241 | pauses without touching the queue |
| Cameras.GpuCameraStream.Resume | ai_engine/gpu_camera.py:243-279 | opens a segment and discards what was queued |
| Cameras.GpuCameraStream.OnConnected | ai_engine/gpu_camera.py:556-571 | opens a segment and discards what was queued |
| Cameras.GpuCameraStream.IngestFrame | ai_engine/gpu_camera.py:573-583 | queues every decoded frame, paused or not, dropping the oldest beyond the depth |
| Cameras.GpuCameraStream.ReadFrame | ai_engine/gpu_camera.py:397-411 | takes the oldest queued frame |
| Window.DropIsSince | ai_engine/camera.py:148-151 | popping from the front of an ascending deque is filtering by the cutoff |
| Window.SinceTwice | ai_engine/camera.py:148-151 | pruning early first loses nothing |
| Window.SinceAre | ai_engine/camera.py:148-151 | filtering keeps every timestamp that is not before the cutoff, as often as it was there, and no other |
| Window.Prune | ai_engine/gpu_camera.py:334-337 | the loop that pops |
| Rate.DequeIsRecorded | ai_engine/gpu_camera.py:311-337 | the deque agrees with the full history on every later query's window |
| Rate.RateIsWindowCount | ai_engine/gpu_camera.py:311-337 | once established, the rate is the full history's count in the last five seconds over five |
| Isolation.OthersUnaffected | ai_engine/pipeline.py:149-180 | results are the frames that do not fail, in batch order, each with its own detection; the newly isolated cameras are exactly the failing ones |
| Isolation.AllHealthy | ai_engine/pipeline.py:158-163 | without a poisoned frame, every frame comes back, in order |
| Isolation.IsolationIsExact | ai_engine/pipeline.py:111-180 | over any run of ticks, with transient errors wherever they come, a camera is isolated if and only if it once had a poisoned frame, or a fine one whose own call raised after the batched one had; it is then never collected, and every other camera always is when it has a frame |
| Isolation.HealthyIsolatedIff | ai_engine/pipeline.py:158-178 | a camera that never had a poisoned frame is isolated exactly when its own call raised on a tick on which the batched call raised too |
| Isolation.HealthyIsIsolated | ai_engine/pipeline.py:167-178 | a run in which a camera is excluded for good though the detector raises on no frame |
| Pipeline.InferencePipeline.ReadyIsCollected | ai_engine/pipeline.py:111-127 | what the pipeline collects is the fresh frames of unpaused cameras with the isolated ones passed over |
| Pipeline.InferencePipeline.IsolationInRuns | ai_engine/pipeline.py:111-180 | so, over all the ticks the pipeline went through: its isolated cameras are exactly those that once failed so, and the next tick collects from exactly the others |
| Pipeline.InferencePipeline.Collect | ai_engine/pipeline.py:111-127 | the fresh frames of unpaused, unisolated cameras, in order; their slots are emptied |
| Pipeline.InferencePipeline.ReadyAre | ai_engine/pipeline.py:111-127 | a frame is collected if and only if it is the latest of a camera neither paused nor isolated and at most two seconds old |
| Pipeline.InferencePipeline.Infer | ai_engine/pipeline.py:149-180 | the batch call or its frame-by-frame fallback, with transient errors in either, gives the results and isolates the cameras the model says |
| Pipeline.BestIsHighest | ai_engine/pipeline.py:209-212 | the event reported is one of the frame's events and none has a higher peak; among equals the first |
| Pipeline.ObservationsRecord | ai_engine/pipeline.py:201-206 | each operation recorded is that frame's own stream object, segment and time, with the boxes and confidences the detector finds on that frame |
| Pipeline.IncidentsAre | ai_engine/pipeline.py:205-224 | one incident, in order, for each result on which something fires, with its camera, its own picture and an event of the highest peak |
| Pipeline.InferencePipeline.Assess | ai_engine/pipeline.py:200-224 | resolve and update with the frame's own stream, segment, time, boxes and confidences, and if anything fired pause the camera and report the best, once |
| Pipeline.InferencePipeline.TickOnce | ai_engine/pipeline.py:184-224 | a whole tick: at most one incident per camera, each for what fired on its own frame; exactly the reported cameras become paused; every operation recorded is a frame that was ready with what the detector finds on it; the histories of the registry and of isolation grow by this tick's frames |
| PipelineRun.WreckIsReported | ai_engine/pipeline.py:184-224 | real objects through three ticks: the wreck is reported on the third, with that tick's picture, its camera is paused, and no tick before reports anything |
| Reconcile.ApplyIsPerCamera | ai_engine/supervisor.py:172-213 | applying a plan changes each camera as its own actions say |
| Reconcile.ActionsAbout | ai_engine/supervisor.py:80-132 | what a plan holds for one camera: a stop, or that camera's own part |
| Reconcile.ShareSettles | ai_engine/supervisor.py:85-132 | that part leaves the camera in the settled state and, planned again there, is empty |
| Reconcile.OrderListsIndex | ai_engine/supervisor.py:73 | indexing the snapshot keeps each camera once, with its last entry |
| Reconcile.OnePassConverges | ai_engine/supervisor.py:43-132 | for every snapshot, running set and pending set, one pass leaves exactly the wanted cameras running with the snapshot's address, channel and version, and a second pass has nothing to do |
| Reconcile.IndexIsLatest | ai_engine/supervisor.py:73 | the entry that counts for a camera is its last one in the snapshot |
| Reconcile.PassRunsWanted | ai_engine/supervisor.py:75-132 | after one pass a camera runs if and only if its last entry is enabled and not inactive, with that entry's address, channel and version, paused where it says so, and never unpaused with an event pending |
| Reconcile.NoNeedlessRestart | ai_engine/supervisor.py:96-118 | a running camera whose address and channel match is never stopped, started or restarted |
| Supervisor.CameraSupervisor.IndexSnapshot | ai_engine/supervisor.py:73 | the loop that builds the dictionary and its order |
| Supervisor.CameraSupervisor.ComputeActions | ai_engine/supervisor.py:43-132 | the two loops build exactly the plan |
| Supervisor.CameraSupervisor.StartStream | ai_engine/supervisor.py:151-169 | a new stream object with the snapshot's configuration, paused if that is desired |
| Supervisor.CameraSupervisor.ApplyAction | ai_engine/supervisor.py:172-213 | one action on the stream objects; every other camera keeps its object |
| Supervisor.CameraSupervisor.ApplyActions | ai_engine/supervisor.py:172-213 | a whole plan on the stream objects |
| Supervisor.CameraSupervisor.HandleSnapshot | ai_engine/supervisor.py:222-230 | plan and application: every camera ends settled, and cameras that need no restart keep the same stream object |
| Supervisor.CameraSupervisor.HeartbeatOnce | ai_engine/supervisor.py:219-230 | one turn of the loop: nothing without a response, else the outbox is scanned and, unless the scan raises, the snapshot applied with the cameras it found pending |
| OutboxModel.ExecuteConcat | ai_engine/outbox.py:52-55 | two calls in a row out of one budget of file operations |
| OutboxModel.CutLosesIff | ai_engine/outbox.py:121-193 | however far a call gets before a crash, the directory stays intact and every event accounted for stays so, except exactly one case: the call's own event, when it runs to its end, quarantines the file without having read it, and no settling post was made |
| OutboxModel.RunsStayIntact | ai_engine/outbox.py:52-94 | over every run of calls, each cut anywhere, only whole files are visible, and files and posts carry the payload accepted under their name |
| OutboxModel.LostForGood | ai_engine/outbox.py:121-135 | a lost event is not brought back by any later call |
| OutboxModel.RunsConserve | ai_engine/outbox.py:52-193 | over every run, and whatever befalls other events, an accepted event is pending, in quarantine, or removed after a settling post, if and only if none of its own calls quarantined it unread |
| OutboxModel.GarbledStays | ai_engine/outbox.py:77-85 | in every run, a pending file whose text is not UTF-8 stays as it is, and loading it raises each time |
| OutboxModel.UnreadEventIsLost | ai_engine/outbox.py:127-135 | a run that loses an event that way |
| OutboxSpacing.PostsWait | ai_engine/outbox.py:138-172 | every post carries the accepted payload, is not earlier than its record asks for, and, if the record waits past the last post, comes at least the backoff of its attempts after that |
| OutboxSpacing.SpacedIff | ai_engine/outbox.py:143-166 | a posted, still pending event is not due before its backoff has passed since the last post if and only if its record asks to wait past that post; otherwise it is due at once |
| OutboxSpacing.MarkedIff | ai_engine/outbox.py:143-159 | after a post the record waits exactly when the outcome was to retry, the file was read, the attempt is below the 1024th and the process did not stop before the rename |
| OutboxSpacing.StopBeforeMarkRepeats | ai_engine/outbox.py:174-193 | a run that posts the same event twice at the same time |
| OutboxSpacing.RunsSpace | ai_engine/outbox.py:138-193 | over every run each record is either due since the last post or asks for at least the backoff after it |
| Outbox.DurableOutbox.AtomicWriteFile | ai_engine/outbox.py:52-55 | write aside in two steps, then rename: the model's plan, cut where the budget ends |
| Outbox.DurableOutbox.EnqueueEvent | ai_engine/outbox.py:58-74 | a new record with no attempts under a new name |
| Outbox.DurableOutbox.Load | ai_engine/outbox.py:77-85 | the record, or the file moved to quarantine, or, if its text is not UTF-8, an error and the file left as it is |
| Outbox.DurableOutbox.QuarantineEvent | ai_engine/outbox.py:121-135 | copy with the reason, then unlink; nothing for a missing file; an error before anything is written if the text is not UTF-8 |
| Outbox.DurableOutbox.MarkAttempt | ai_engine/outbox.py:143-159 | one more attempt and the next time, or nothing once the backoff overflows |
| Outbox.DurableOutbox.DeliverOne | ai_engine/outbox.py:169-193 | read, post if due, and act on each of the six outcomes; reports the camera that is gone |
| Outbox.DurableOutbox.Pending | ai_engine/outbox.py:88-94 | every pending file once, oldest first, and no temporary one |
| Outbox.DurableOutbox.PendingCameraIds | ai_engine/outbox.py:97-112 | exactly the cameras with a readable pending event, with unreadable files moved to quarantine; no answer if and only if some file raises, and then nothing past the first such file is touched |
| Outbox.DurableOutbox.RunDeliveryCycle | ai_engine/outbox.py:196-203 | one delivery per file pending at the start, oldest first |
| Outbox.CallsKeepEvent | ai_engine/outbox.py:196-203 | wherever a pass is cut, an event stays accounted for unless its own call of the pass quarantined it unread |
| Delivery.DeliveryIs | ai_engine/outbox.py:169-193 | a delivery of a readable, due event posts it once and then does exactly what the answer asks for: removed, moved aside, rescheduled with one more attempt, or left alone; nothing else on disk changes |
| Delivery.DeliveryElse | ai_engine/outbox.py:169-173 | any other delivery posts nothing, and moves aside only a file that cannot be read |
| Delivery.EnqueueIs | ai_engine/outbox.py:58-74 | enqueueing leaves one whole file with the payload, no attempt, due at any time |
| Delivery.ScanIs | ai_engine/outbox.py:77-85 | scanning a file moves it aside exactly when it cannot be read without raising |
| Delivery.BaseDoubles | ai_engine/outbox.py:138-140 | the backoff starts at two seconds and doubles up to five minutes |
| Delivery.PassIs | ai_engine/outbox.py:196-203 | a whole pass over readable, due files leaves pending exactly those whose answer keeps them so |
| Delivery.PassClears | ai_engine/outbox.py:176-187 | a pass on which the backend settles everything leaves the outbox empty |
| Protocol.StepKeepsIff | ai_engine/supervisor.py:86-130 | for each camera: collecting, pausing, queueing, dropping, deciding, a scan that raises, applying, delivering and stopping each keep "while it runs with an event under way it is paused, and it has just one" if and only if the step is not one of the named offences against that camera |
| Protocol.PauseKeepsIff | ai_engine/pipeline.py:222-224 | a detection's pause is safe unless the stream object it holds was replaced by an unpaused one or a resume is already planned |
| Protocol.RunsAreSafe | ai_engine/pipeline.py:222-224 | every run without an offence against a camera is safe for that camera, whatever happens to the others, whatever stale state the snapshots carry and wherever the process stops |
| Protocol.AtomicRunsAreSafe | ai_engine/supervisor.py:86-130 | with atomic ticks, each reporting any number of its cameras, and atomic heartbeats, a camera never started unpaused with its event pending is safe in every run, across restarts of its stream too |
| Protocol.ObserveKeepsIff | ai_engine/supervisor.py:106-130 | deciding on a snapshot is safe, and so will the plan be, unless it resumes the camera whose event is not queued yet |
| Protocol.ApplyKeepsIff | ai_engine/supervisor.py:172-213 | applying an older plan keeps the blindfold if and only if it starts or restarts no claimed camera unpaused |
| Protocol.AtomicHeartbeatIff | ai_engine/supervisor.py:91-118 | deciding and applying in one go, with no event of the camera half-way: broken if and only if the camera is not running, has a pending event and is started unpaused; restarts and resumes never break it |
| Protocol.ResumeInFlightBreaks | ai_engine/pipeline.py:222-224 | every heartbeat that decides to resume between pause and queueing does break it once applied |
| Protocol.RestartForgets | ai_engine/supervisor.py:91-93 | a run from the empty state in which a restart and a stale snapshot leave a running, unpaused camera with a pending event |
| Protocol.StalePlanUnpauses | ai_engine/supervisor.py:108-118 | a run in which a plan decided before a detection restarts the camera unpaused after it |
| Protocol.HeartbeatInBetweenResumes | ai_engine/supervisor.py:129-130 | a run in which a heartbeat between pause and queueing resumes the camera |
| Protocol.RestartInTickEscapes | ai_engine/supervisor.py:193-201 | a run in which a tick pauses a stream object that was replaced |
| Protocol.ScannedPending | ai_engine/outbox.py:97-112 | after a scan that did not raise every event still pending is one the supervisor counted |
| Nv12.FoldIsBetween | ai_engine/gpu_preprocess.py:40 | the grey value lies between the smallest and the largest of the pixel's three channels |
| Nv12.FoldIsLuminance | ai_engine/gpu_preprocess.py:40 | and within 0.6 of the ITU-R BT.601 luminance |
| Nv12.CloseToStandard | ai_engine/frames.py:37-44 | for every triple of bytes and both ranges each channel is never more than 0.1 above the exact conversion of ITU-R BT.601, section 2.5, and short of it by at most one unit per rounding shift and 0.1 |
| Nv12.ColourFits | ai_engine/gpu_preprocess.py:32-41 | no value of the colour path leaves 32 bits |
| Nv12.ReadsInside | ai_engine/gpu_preprocess.py:33-35 | every luma and chroma read is inside the frame's rows and the width of its row |
| Nv12.OffsetsFitIff | ai_engine/gpu_preprocess.py:33-35 | every offset on the way to every pixel's bytes fits 32 bits if and only if the frame ends within the first two gigabytes of its plane |
| Nv12.UpsampleAt | ai_engine/frames.py:34-35 | repeating rows and columns puts chroma sample (x/2, y/2) at (x, y) |
| Nv12.PathsAgree | ai_engine/frames.py:25-46 | folding the whole-array image gives, at every coordinate of every even-sized frame in both ranges, the kernel's grey value |
| Resample.WeightsSum | ai_engine/gpu_preprocess.py:179-180 | two separately rounded weights are not negative and add up to exactly 2048, ties included |
| Resample.TapIsSound | ai_engine/gpu_preprocess.py:168-180 | every tap is inside the source and samples the output's coordinate, kept inside, to within half a unit |
| Resample.ShrinkStaysInside | ai_engine/gpu_preprocess.py:171-177 | when shrinking no coordinate is negative |
| Resample.Fractions | ai_engine/gpu_preprocess.py:171-176 | the whole-array steps, with the fractions at the edges overwritten by zero |
| Resample.Axis | ai_engine/gpu_preprocess.py:168-183 | the table holds every tap |
| Resample.BlendIsBetween | ai_engine/gpu_preprocess.py:49-54 | a resized pixel lies between the darkest and the brightest of its four sources; four equal ones are reproduced |
| Resample.BlendIsNear | ai_engine/gpu_preprocess.py:49-54 | it is within one grey level of exact bilinear interpolation |
| Resample.BlendFits | ai_engine/gpu_preprocess.py:49-54 | no intermediate leaves 32 bits and the result is a byte |
| Bilinear.TapIsPosition | ai_engine/gpu_preprocess.py:168-180 | a tap takes the two neighbours of the output pixel's centre in the source, weighted to within half a unit |
| Bilinear.BlendIsInterpolation | ai_engine/gpu_preprocess.py:49-54 | the blend is within 1.125 grey levels of exact bilinear interpolation at that centre |
| Bilinear.GrayIsStandard | ai_engine/gpu_preprocess.py:31-42 | the grey value at (x, y) is within 3.3 below and 0.7 above the ITU-R BT.601 luminance of the pixel's own luma byte and the U and V bytes of its two by two block |
| Letterbox.HalfMargin | ai_engine/gpu_preprocess.py:266 | the margin is half the padding rounded down, for every padding |
| Letterbox.ScaledSides | ai_engine/gpu_preprocess.py:258-261 | the longer side becomes 640, the other at most that and at most itself; one vanishes only at 1280 to 1 |
| Letterbox.ScaledShare | ai_engine/gpu_preprocess.py:258-261 | each scaled side is its share of 640 to within half a pixel |
| Letterbox.AcceptedIff | ai_engine/gpu_preprocess.py:252-267 | a frame is accepted exactly when its layout is right, no side is zero, one side reaches 640 and the sides are less than 1280 to 1 apart |
| Letterbox.GeometryIsSound | ai_engine/gpu_preprocess.py:258-267 | the image fits inside the output, centred to a pixel; sides are 640, or multiples of 32 at most 640 |
| Letterbox.OutputIsBetween | ai_engine/gpu_preprocess.py:48-55 | every image pixel of the output is between the grey values it samples |
| Letterbox.OutputShows | ai_engine/gpu_preprocess.py:45-56 | every cell, without the tables: inside the image the grey value interpolated at that pixel's centre in the frame, to within 1.125, and 114 around it |
| Letterbox.TensorShows | ai_engine/gpu_preprocess.py:45-56 | so at every channel, row and column of the output |
| Letterbox.OutputIsByte | ai_engine/gpu_preprocess.py:47-56 | every cell, image and padding, is a byte |
| Letterbox.ConstantFrame | ai_engine/gpu_preprocess.py:48-55 | a frame of one grey stays that grey over the whole image |
| Letterbox.OneWriter | ai_engine/gpu_preprocess.py:45-56 | every cell of the three channels is written by exactly one thread |
| Letterbox.RunThread | ai_engine/gpu_preprocess.py:45-56 | one thread writes its three cells and no other, with every read in bounds |
| Letterbox.RunGrid | ai_engine/gpu_preprocess.py:283-297 | in whatever order the grid runs, every cell ends with the output value |
| Letterbox.Prepare | ai_engine/gpu_preprocess.py:236-298 | the whole preparation: refused exactly as stated, else at every channel, row and column the interpolated grey value of the frame to within 1.125, or 114 in the padding, over 255, between 0 and 1 |
| Limiter.SlidingWindowLimiter.CheckKey | backend/app/core/rate_limit.py:45-54 | prunes and answers from what is held |
| Limiter.SlidingWindowLimiter.RecordFailure | backend/app/core/rate_limit.py:56-61 | appends, then prunes |
| Limiter.SlidingWindowLimiter.ResetKey | backend/app/core/rate_limit.py:63-65 | forgets the key |
| Limiter.KeysNeverEmpty | backend/app/core/rate_limit.py:29-43 | after any calls no key maps to an empty deque |
| Limiter.CheckSeesWindow | backend/app/core/rate_limit.py:29-54 | over any calls on a clock that never runs back, it allows if and only if fewer than the limit of the key's failures since its last reset are in the window |
| Limiter.AllowedIff | backend/app/core/rate_limit.py:38-52 | a later call is allowed exactly when the m-th newest failure has expired |
| Limiter.RetryAfterIsLeast | backend/app/core/rate_limit.py:53-54 | the wait is never longer than it must be, and is the least whole number of seconds that suffices if and only if the oldest failure and the one that must expire give the same wait; so always with exactly the limit held |
| Limiter.RetryAfterTooShort | backend/app/core/rate_limit.py:53-54 | a history in which the wait reported is 6 seconds and the least that suffices is 96 |
| Limiter.RaisesIff | backend/app/core/rate_limit.py:50-53 | over any calls, `check` raises if and only if no attempt is allowed and no failure of the key is in the window |
| Limiter.FirstCheckRaises | backend/app/core/rate_limit.py:50-53 | the first check of a limiter that allows nothing |
| BackupModel.PublishIsAtomic | backend/app/maintenance/backup.py:400-473 | wherever it raises or stops, a publication leaves the manifests unchanged or its own point complete; a failure whose cleanup ran leaves nothing |
| BackupModel.RemoveSteps | backend/app/maintenance/backup.py:864-869 | removal cut anywhere has taken the manifests of the first ids and nothing else, databases first |
| BackupModel.CandidatesAre | backend/app/maintenance/backup.py:844-855 | exactly the eligible records, newest first |
| BackupModel.RetentionIsExact | backend/app/maintenance/backup.py:840-859 | of each origin, retention removes exactly the eligible points beyond the newest `keep` |
| BackupModel.PruneIsExact | backend/app/maintenance/backup.py:818-861 | a pruning that is not interrupted takes those points and no other |
| BackupModel.PruneTakesOnlyEligible | backend/app/maintenance/backup.py:834-859 | however far it gets it never takes a pre-restore, invalid, legacy local point, or one named by an active restore in the same root |
| RetentionRules.PruneSparesGuarded | backend/app/maintenance/backup.py:834-836 | however far pruning gets, the manifest and the database of a point that a requested or running restore names in that directory stay |
| RetentionRules.AttemptSparesGuarded | backend/app/maintenance/backup.py:508-626 | so no attempt of any kind takes such a point from the local root |
| RetentionRules.FinishedGuardsNothing | backend/app/maintenance/backup.py:315-336 | a restore that is over protects nothing: pruning is what it is without one |
| RetentionRules.PruneTakesOnlyCounted | backend/app/maintenance/backup.py:840-859 | what pruning takes are valid scheduled or manual points of that tier that nothing guards, local ones only if their record names the tier; every other file stays as it is |
| RetentionRules.PruneKeepsNewest | backend/app/maintenance/backup.py:840-859 | a pruning that ran to its end has kept the newest `daily` scheduled and the newest `manual` manual ones, or all there were |
| RetentionRules.AttemptKeepsDatabases | backend/app/maintenance/backup.py:508-626 | over a whole attempt a database that is not its own goes only by retention, and only where the point counts |
| RetentionRules.InvalidProtectedGoes | backend/app/maintenance/backup.py:570-572 | nothing is left of a protected copy that does not validate, if its removal is not interrupted |
| RetentionRules.InvalidLocalStays | backend/app/maintenance/backup.py:524-536 | a local copy that does not validate stays, marked so; a pre-restore backup returns it and any other fails |
| RetentionRules.NewPointIs | backend/app/maintenance/backup.py:400-473 | the record of a new point: its own id, the request's time and origin, the tier of its root, and whether its copy validated |
| BackupModel.PruneEnds | backend/app/maintenance/backup.py:818-861 | what a pruning has taken wherever it stops, and exactly when it ends well or raises something other than an operating-system error |
| BackupRuns.AttemptEvolves | backend/app/maintenance/backup.py:508-626 | whatever is asked and wherever it raises or stops, each root gains at most this attempt's point under its own tier and loses only what retention may take |
| BackupRuns.AtMostOneNewPoint | backend/app/maintenance/backup.py:560-626 | each root gains at most this attempt's point, and only one of them does, unless retention is asked for and a manifest or the state file in the protected root can make it raise other than an operating-system error |
| BackupRuns.FallsBackWithPointIff | backend/app/maintenance/backup.py:570-596 | the exact condition under which the protected try counts as failed with its valid new point standing, over all inputs and stops |
| BackupRuns.OutcomeIsTrue | backend/app/maintenance/backup.py:562-626 | without retention, failure means no new valid point and success means exactly the point returned |
| BackupRuns.FailureWithPointIff | backend/app/maintenance/backup.py:605-626 | exactly when a local try reports failure with its valid point in place: it was published and retention neither ran to its end nor removed it |
| BackupRuns.FailedAttemptPublishes | backend/app/maintenance/backup.py:614-626 | such an attempt |
| BackupOutcomes.SameRetention | backend/app/maintenance/backup.py:818-861 | what retention takes and how it ends depend on a root's manifests and state file alone |
| BackupOutcomes.AttemptIs | backend/app/maintenance/backup.py:508-626 | for every disk, request and stop: which new points stand after an attempt, whether it returns, fails or is busy, and which record it returns, read off the disk before the call |
| BackupOutcomes.TwoNewPointsIff | backend/app/maintenance/backup.py:560-626 | exactly when one attempt leaves two new valid points |
| BackupOutcomes.FailedWithNewPointIff | backend/app/maintenance/backup.py:524-626 | exactly when an attempt of any kind reports failure with a new valid point in either root |
| BackupOutcomes.FailedEmergencyPublishes | backend/app/maintenance/backup.py:524-536 | a pre-restore attempt that fails with its point in place |
| BackupOutcomes.FailedTargetsPublish | backend/app/maintenance/backup.py:589-626 | an attempt that fails on both targets with its protected point in place |
| BackupOutcomes.FailedSweepPublishes | backend/app/maintenance/backup.py:589-591 | an attempt that fails between the targets with its protected point in place |
| BackupRuns.ProtectedPointGoesIff | backend/app/maintenance/backup.py:570-588 | exactly when an attempt removes an older point of the protected root; the local restore state plays no part beyond letting the attempt start |
| BackupRuns.LocalRestoreIsIgnored | backend/app/maintenance/backup.py:315-336 | what becomes of the protected root does not depend on the restore the local state file describes |
| BackupRuns.RequestedPointIsPruned | backend/app/maintenance/backup.py:834-836 | a run in which a protected point named by a requested restore is pruned |
| BackupRuns.UnreadableManifestDoubles | backend/app/maintenance/backup.py:573-590 | a run in which one attempt leaves two valid points, with one manifest that is not UTF-8 |
| BackupRuns.UnreadableStateDoubles | backend/app/maintenance/backup.py:315-336 | the same with a state file that is not UTF-8 and well-formed manifests |
| Backup.ArtifactDirectory.Write | backend/app/maintenance/backup.py:400-473 | the file operations and the cleanup in place, as the model's plan |
| Backup.ArtifactDirectory.RemoveFiles | backend/app/maintenance/backup.py:857-869 | the loop of removals |
| Backup.ArtifactDirectory.PruneBackups | backend/app/maintenance/backup.py:818-861 | the loops of retention perform the model's pruning |
| Backup.BackupService.CreateBackup | backend/app/maintenance/backup.py:508-626 | protected first, local once, on the two directories, as the model's attempt |

## Left out

- RTSP, FFmpeg, OpenCV, NVDEC, CUDA loading, the network and snapshot encoding: calls into other systems. The detector is a function from a frame to a detection or none; its calls may also raise for transient reasons.
- Floating-point rounding: times, scores, boxes, rates and resize coordinates are exact reals, including the single-precision cast of the coordinates in `_axis`.
- Interleaving inside one reader call, one heartbeat scan, or, outside `Protocol`, one tick: each is one step. The pipeline and the supervisor share one camera dictionary; each class holds it as a field.
- Batch latency fields, log lines, and the text of error messages.
- The reconnection, watchdog and process control of both readers: only what a connection, a dropped connection and a decoded frame do to the state.
- The measurement methods of the GPU reader are the software reader's, line for line, and are modelled once; the tick is modelled over the software reader.
- Cameras.CameraStream.Decode: a frame is one image handle; decoding itself, releasing the capture and the pauses of the loop are outside.
- Outbox.DurableOutbox.EnqueueEvent: names are fresh, as event ids are unique; a clash would overwrite.
- Protocol.RunsAreSafe: the steps assume a queued event takes a file name that is not pending.
- Files of the outbox whose JSON parses but lacks the payload, and events without a camera.
- Nv12.PathsAgree: frames with an odd width or height, on which the array form raises.
- Letterbox.Prepare: the rounding of the model's number type; the division by 255 is exact.
- BackupModel.RetentionIsExact: eligibility is by the checks recorded in a manifest, as in the code, which does not look at the database file again; a negative `keep` drops the oldest ones, as the slice does, and the count is stated for the others.
- Backup.BackupService.CreateBackup: the maintenance lease and the in-process lock; the probe, the space test and the validation are answers of the surroundings; sweeping the temporary files is one step, which happens or raises and has then removed nothing.
- Restoring a backup, archives, the coordinator, the pre-restore sweep after a restore, and the restore state machine.
- Routes, middleware, sessions, redaction, incident services, migrations, health roll-ups, scripts, the frontend: plumbing or easy members.
- The transport classification of delivery outcomes: the six outcomes are inputs.
- `ai_engine/adas_transfer/code/accumulate.py`, the reference copy of the same algorithm.
