# Verification model of the measurement tools

This project models the parts of the repository where mistakes would silently spoil a measurement, and
proves what they are there to guarantee.

* **The test protocol** (`Wire`, `Orchestrator`, `ManagementClient`, `ManagementServer`, `Protocol`): the
  orchestrator's listener and stop timer, the server's connections and result path, and every peer's
  message loop, joined by FIFO links. `Protocol` is the closed system: any number of peers, all of them
  taking part in any number of cases, and every interleaving of deliveries, configuration goroutines,
  timers, signals and result writers. The sends of one listener call are separate steps, and the order in
  which maps are visited, the uploads and the signals are left open. `log.Fatal` is a halt state, and so is a
  panic of the listener: net/http recovers it and closes the connection, but the orchestrator waits for ever.
  A panic over a results message or a chunk likewise costs only the connection.
  `ProtocolInvariant`, `ProtocolSteps`, `ProtocolSafety`, `ProtocolHistory` and `ProtocolSignals` hold the
  inductive invariant, `ProtocolTheorems` what follows from it, `ProtocolProgress` termination,
  `ProtocolPayloads` that what executors hand over is what arrives.
* **Chunked files** (`ChunkTransfer`, `ChunkServer`, `ChunkTheorems`, `SharedPaths`,
  `FileDelivery`): the client's splitting loop and the server's reassembly through one handle a transfer.
  `ProtocolFiles` runs the server's handler along the closed system.
* **The reconfiguration guard** (`Guard`, `GuardTiming`, `GuardTrace`): the timed state machine over
  feedback reports and delay samples, and the collector that recovers its episodes from what it prints.
* **The reconfiguration detector** (`Detector`, `DetectorBuffer`, `DetectorTheorems`, `DetectorCorrelation`,
  `DetectorPasses`, `DetectorPulses`): the circular buffer, its autocorrelation and folding, and the history of detections.
* **The synthetic codecs** (`StatisticsCodec`, `ShapedPacketizer`): rate limiter, transient budget, and
  the splitting of frames in bytes and time.
* **The evaluation of the guard** (`Evaluation`, `EvaluationTheorems`, `Periodic`): clusters of events,
  true and false positives, false negatives, and the periodic events.
* **Printers and parsers** (`Feedback`, `SdpFraming`, `FieldTrials`): the walk over RFC 8888 feedback,
  escaped session descriptions, and field trials.

Objects that the source updates in place are classes, its loops are loops, and each of their methods is
proved against a function or a predicate; the theorems are about these. Floating-point numbers are reals,
times are integers.

## What holds only under a condition

The code is modelled as it is. Where it does not do what its documentation, a comment or its purpose
suggests, a lemma says exactly when it does, and most come with an input that shows the difference.

* With an empty case list the first state update panics (`FatalIff`).
* A results message that cannot be parsed, or whose sender is not registered, keeps the orchestrator from
  shutting down (`OnResults`, `Drained`).
* An empty large file is never created at the receiver (`ArrivesIffNonempty`), and a chunked transfer that
  succeeds may have its chunks in the wrong order (`OriginalIffInOrder`, `OrderMatters`).
* Chunk keys of different senders can coincide (`KeysEqualIff`, `KeyCollision`), and two senders that use one
  file name in a case write to one file (`SharedIffSame`, `NeitherFile`).
* The guard's cooldown is commented as the minimum interval between triggers; an episode that runs out
  clears it (`CooldownKeptIff`, `ConfirmedWithinCooldown`).
* The recent average is commented to stop at the first detection not within a second of the others; it
  only stops at longer periods (`AveragesAsStatedIff`, `AveragesFarBelow`).
* The time of the next peak is announced in milliseconds and stored in whole seconds
  (`AnnouncedIff`, `AnnouncedOtherwise`).
* A rate update is documented to be limited by a ratio; below 100 bps it can exceed it
  (`RatioLimitIff`, `LoweringRaises`).
* Clusters can outnumber true positives and false negatives if the window is too wide (`AccountedIff`).
* A session description with a backslash before the letter r or n is changed on its way
  (`DeliveredIff`, `ChangedOnTheWay`).

## Model

| member | source | states |
|---|---|---|
| `ProtocolTheorems.Lockstep` | cmd/orchestrator/orchestrator.go:79-180 | In every reachable state each peer's received commands are a prefix of those issued, these are a prefix of Configure 0, Start, Stop, Configure 1, ..., Shutdown, and no peer has received Start k before all have received Configure k, nor Configure k + 1 or Shutdown before all have received Stop k. |
| `ProtocolTheorems.TestWindow` | cmd/orchestrator/orchestrator.go:151-176 | A stop timer is pending exactly while the run state is Testing and the Starts are sent; then the current case is the one whose Start was issued last, and every peer has it configured with no configuration under way. |
| `ProtocolTheorems.NeverFatal` | cmd/orchestrator/orchestrator.go:86-172 | With at least one case no reachable state has taken a log.Fatal or index-panic branch. |
| `ProtocolTheorems.FatalIff` | cmd/orchestrator/orchestrator.go:86-103 | With at least one peer, a fatal branch is reachable exactly if the case list is empty. |
| `ProtocolTheorems.FatalWithoutCases` | cmd/orchestrator/orchestrator.go:86 | A concrete run with an empty case list that panics at the first state update. |
| `ProtocolTheorems.Attribution` | internal/management/server.go:326-339 | For all interleavings every stored results message and file chunk is under the result path of the case that produced it. |
| `ProtocolTheorems.UploadsConserved` | internal/management/client.go:293-311 | What the server took from a peer followed by what is under way is exactly what the peer uploaded, one batch a case, in case order: nothing is lost, doubled or reordered. |
| `ProtocolTheorems.CompleteAtShutdown` | cmd/orchestrator/orchestrator.go:88-98 | When Shutdown has been issued, all uploads of all cases are stored, all writers have finished and no chunked file is open. |
| `ProtocolTheorems.SignalsConserved` | internal/management/server.go:312-325 | In every reachable state, what another peer has been sent of a peer's signals, followed by those on that peer's uplink, is exactly what it emitted, in order; nobody is sent his own. |
| `ProtocolTheorems.SignalsStayInCase` | internal/management/server.go:312-325 | A signal emitted in case k is received after the receiver's Configure k and before its next Configure or Shutdown, by the case executor of case k; and none of those emitted is missing, as received, queued or on the uplink, in order. |
| `ProtocolPayloads.RunGives` | internal/management/client.go:293-311 | In every run, what a peer has emitted and uploaded is, payload for payload and item for item, what the events of the run say its executors handed over, in order. |
| `ProtocolPayloads.PayloadsConserved` | internal/management/client.go:633-637 | So at any time the payloads that another peer has been sent, followed by those on the way, are exactly those handed to sendSignal, in order. |
| `ProtocolPayloads.AllDelivered` | cmd/orchestrator/orchestrator.go:88-98 | When a run can go no further, every peer has received exactly the payloads that each other peer's executors handed over, and the server holds exactly what they left behind, both in order. |
| `ProtocolTheorems.SignalsEmitted` | internal/management/client.go:335-351 | A signal under way to the server always belongs to the orchestrator's current case, between Start and the next Configure. |
| `ProtocolTheorems.ReachableInv` | cmd/orchestrator/orchestrator.go:73-180 | The invariant behind all of these holds in every reachable state: each peer stands at one place of the protocol that determines both its queues, the sends still due to it, its entry in connectedClients and its local state. |
| `ProtocolTheorems.StepLocated` | cmd/orchestrator/orchestrator.go:79-180 | Every enabled step, with the listener's sends as separate steps, keeps the placement of the peers and the stage of the orchestrator in agreement. |
| `ProtocolTheorems.StepRecorded` | internal/management/server.go:280-399 | Every enabled step keeps the recorded histories right: commands heard, signals heard, uploads taken, paths used. |
| `ProtocolSignals.StepRelayed` | internal/management/server.go:312-325 | Every enabled step keeps the signals conserved: only a peer's own emission adds to its history, and the broadcast moves the signal from its uplink to every other connection. |
| `ProtocolSafety.ReportStep` | cmd/orchestrator/orchestrator.go:79-162 | Processing one state update, in each stage, leads to the next stage exactly when the last peer has reported, and keeps the invariant. |
| `ProtocolSafety.SendStep` | internal/management/server.go:172-195 | Making one of the pending sends finds its peer registered and keeps the invariant. |
| `ProtocolSafety.TimerStep` | cmd/orchestrator/orchestrator.go:163-176 | The stop timer fires only in a test and keeps the invariant. |
| `ProtocolSteps.ReactLocal` | internal/management/client.go:161-351 | Each reaction of a peer's message loop moves that peer to its next place in the protocol. |
| `ProtocolProgress.StepLess` | cmd/orchestrator/orchestrator.go:79-180 | Every enabled step strictly decreases a lexicographic measure. |
| `ProtocolProgress.Termination` | cmd/orchestrator/orchestrator.go:79-184 | There is no infinite run from the initial state. |
| `ProtocolProgress.StuckIsDone` | cmd/orchestrator/orchestrator.go:88-98 | A reachable state with no enabled step is final: every peer has received the whole script, sent all its batches and exited, all results are stored under the right paths, and every signal was received by every other peer, once and in the order emitted. |
| `Orchestrator.Process.constructor` | cmd/orchestrator/orchestrator.go:73-77 | The closure starts with no client known, before the test, at case 0. |
| `Orchestrator.Process.AllTestClientsInState` | cmd/orchestrator/orchestrator.go:187-198 | True exactly if every required client is known and in the required state. |
| `Orchestrator.Process.OnClientState` | cmd/orchestrator/orchestrator.go:79-162 | The listener's update of its captured variables is the transition used in the closed system, for some order of the peer map. |
| `Orchestrator.Process.OnTimer` | cmd/orchestrator/orchestrator.go:163-176 | The timer goroutine's update likewise; the timer is used up. |
| `Orchestrator.Process.OnWritersDone` | cmd/orchestrator/orchestrator.go:89-98 | After the writers have finished, Shutdown is due to every known client. |
| `Orchestrator.Process.QueueForAll` | cmd/orchestrator/orchestrator.go:140-150 | One message is due to each key of the map, each once, in some order. |
| `ManagementClient.Client.OnMessage` | internal/management/client.go:161-351 | The message loop's update of queue, current case and executor is the reaction used in the closed system. |
| `ManagementClient.Client.OnStop` | internal/management/client.go:228-334 | A Stop queues TestEnding, the uploads and Registered, in this order, after what was queued before. |
| `ManagementClient.Client.SendSignal` | internal/management/client.go:633-637 | A signal of the executor is queued for the server and added to those emitted. |
| `ManagementClient.Client.UploadAll` | internal/management/client.go:293-311 | The results message and all chunks are queued, in order, after what was queued before. |
| `ManagementServer.Server.OnConnect` | internal/management/server.go:213-217 | A connection starts unregistered with an empty channel; no other changes. |
| `ManagementServer.Server.OnRegister` | internal/management/server.go:280-299 | The reply is queued and the connection carries the name; no other changes. |
| `ManagementServer.Server.OnPeerSignal` | internal/management/server.go:312-325 | The loop queues the signal, once, on every connection but the sender's. |
| `ManagementServer.Server.GetPeerByName` | internal/management/server.go:97-104 | Some connection registered under the name, or none if there is none. |
| `ManagementServer.Server.SendMessage` | internal/management/server.go:172-195 | The message is queued on a connection of that name and nowhere else; without one nothing changes and the call fails. |
| `ManagementServer.Server.OnResults` | internal/management/server.go:326-343 | A results message that parses, of a registered connection, is recorded with the result path of that moment and counted as being written; any other is not recorded, but counted all the same, with no writer to count it down. |
| `ManagementServer.Server.OnWritten` | internal/management/server.go:342 | A finished writer counts down. |
| `ManagementServer.Server.Drained` | internal/management/server.go:167-170 | The wait for the writers ends exactly if all are done and no results message has failed. |
| `ManagementServer.ForwardRefines` | internal/management/server.go:312-325 | The broadcast step of the closed system is the server's loop, whatever its order. |
| `ManagementServer.SendRefines` | internal/management/server.go:97-104 | In reachable states a name belongs to one connection only, so the search order does not matter and each send queues the message there. |
| `ManagementServer.ConnectRefines` | internal/management/server.go:213-217 | Connecting in the closed system adds a fresh connection to the server's table. |
| `ManagementServer.RegisterRefines` | internal/management/server.go:280-299 | Registering in the closed system queues the reply on that connection and puts the name on it. |
| `ManagementServer.ResultsRefine` | internal/management/server.go:326-390 | A results message in the closed system comes from a registered connection and is recorded under the path of that moment, to be written. |
| `ManagementServer.PathRefines` | cmd/orchestrator/orchestrator.go:104-110 | The result path changes exactly when Configures go out, to the path of the case configured. |
| `ManagementServer.Addressed` | cmd/orchestrator/orchestrator.go:140-150 | The orchestrator only ever sends to registered peers. |
| `ChunkTransfer.SendFileInChunks` | internal/management/client.go:486-524 | The chunks sent through the one buffer are the consecutive pieces of the file, numbered, with the last one final. |
| `ChunkTransfer.ChunksAre` | internal/management/client.go:486-524 | As many chunks are sent as announced, numbered from 0, none empty and all full but the last, which is the only one marked final. |
| `ChunkTransfer.Read` | internal/management/client.go:503-511 | A read fills the buffer with the next bytes of the file, as many as remain or fit. |
| `ChunkServer.FileServer.HandleFileChunk` | internal/management/server.go:106-165 | The handler's effect on open transfers, flags and files, and its outcome, in each branch, including the index panic on a negative index. |
| `ChunkServer.FileServer.WriteChunk` | internal/management/server.go:140-162 | An accepted chunk is written where its transfer stands and flagged; a final one closes and forgets the transfer and reports missing chunks. |
| `ChunkServer.FileServer.AllReceived` | internal/management/server.go:148-155 | True exactly if no flag is still unset. |
| `ChunkServer.FileServer.Create` | internal/management/server.go:117-132 | The transfer is opened on an empty file under the current result path, with all flags unset. |
| `ChunkServer.FileServer.SetCurrentResultPath` | internal/management/server.go:411-413 | Only the path for later transfers changes; open ones keep theirs. |
| `ChunkTheorems.RoundTrip` | internal/management/server.go:106-165 | For every nonempty file and positive chunk size, however its chunks interleave with other traffic on other keys and paths, every chunk is accepted, the stored file is the original and the transfer is forgotten. |
| `ChunkTheorems.Interleaved` | internal/management/server.go:106-165 | The same from any point of a transfer on. |
| `ChunkTheorems.ArrivesIffNonempty` | internal/management/client.go:500-505 | The file arrives exactly if it is not empty: for an empty one no chunk is sent and no file created. |
| `ChunkTheorems.KeysEqualIff` | internal/management/server.go:115 | Two senders and files share a chunk key exactly if they are the same, or one name runs on over an underscore into the other's file name. |
| `ChunkTheorems.KeyInjective` | internal/management/server.go:115 | So the chunk key tells senders and files apart if client names have no underscore. |
| `ChunkTheorems.KeyCollision` | internal/management/server.go:115 | Two senders and files with one key, otherwise. |
| `ChunkTheorems.AnyOrder` | internal/management/server.go:134-145 | In any order of arrival the file holds the accepted chunks in the order of arrival, each index at most once, and the flags are the accepted indices. |
| `ChunkTheorems.AnyOrderStep` | internal/management/server.go:147-162 | A final chunk answered without error means the accepted indices are exactly 0 to total - 1, each once. |
| `ChunkTheorems.AnswersExact` | internal/management/server.go:134-162 | A chunk of an open transfer is refused as already received exactly if its index is in the file, as too large exactly if there is no such index, panics exactly if it is negative, and is reported incomplete exactly if it is final with another index missing; a refused one changes nothing. |
| `ChunkTheorems.FirstAnswer` | internal/management/server.go:117-132 | A first chunk that is refused leaves the transfer open on an empty file; one with a negative total empties the file and panics. |
| `ChunkTheorems.OnlyRegistered` | internal/management/server.go:110-113 | A chunk is refused for want of a name exactly if the connection has none, and then changes nothing. |
| `ChunkTheorems.OriginalIffInOrder` | internal/management/server.go:140-162 | For an order of arrival in which a transfer succeeds, the file stored is the original, whatever the contents of its pieces, exactly if the chunks arrived in the order of their indices. |
| `ChunkTheorems.OrderMatters` | internal/management/server.go:140-145 | A reordered transfer that succeeds although the file is not the original. |
| `SharedPaths.SharedPath` | internal/management/server.go:115-145 | Two transfers with different keys to one path, interleaved in any way: neither is refused a chunk, and each byte of the file is that of a transfer that wrote it since the file was last emptied, or zero; the file is as long as what was written since. |
| `SharedPaths.SharedIffSame` | internal/management/server.go:115-145 | So the path holds what both have sent exactly if they have sent the same. |
| `SharedPaths.NeitherFile` | internal/management/server.go:115-145 | Two clients whose files [1, 1] and [2, 2] leave [2, 1]. |
| `FileDelivery.FilesDelivered` | internal/management/server.go:106-165 | For any number of peers, cases and files, no two on one path and no two peers with one key: however the chunks of the peers interleave, none is refused, and a peer whose chunks are all through has its nonempty files stored unchanged. |
| `ProtocolFiles.StepServes` | internal/management/server.go:391-405 | A step of the closed system that takes a chunk runs the server's chunk handler, at the result path and with the sender of that moment, as one more delivery; the other steps do not touch the files. |
| `ProtocolFiles.RunServes` | internal/management/server.go:391-405 | So every run does to the files what its deliveries do one after the other. |
| `ProtocolFiles.FilesRestored` | internal/management/server.go:106-165 | If the peers upload files as above in the cases of any run of the closed system, no chunk is refused in it, and when it can go on no further every nonempty file is stored unchanged under the path of its case. |
| `FileDelivery.PathsEqualIff` | internal/management/server.go:118 | For file names without a slash, two files have one path exactly if they have one name in one directory; the path is the directory, a slash and the name. |
| `FileDelivery.ApartByName` | internal/management/server.go:115-118 | Files share no path and peers no key if client names differ and have no underscore, cases have different directories, and no two files of one case have one name; a name may be used again in another case. |
| `ProtocolFiles.FilesFiled` | internal/management/server.go:106-165 | The theorem on the closed system in terms of these names: when it can go on no further, every nonempty file is stored unchanged in the directory of its case, under its own name. |
| `Guard.StarlinkReconfigurationGuard.OnFeedback` | additional_code/libwebrtc_diffs/modifications.diff:1173-1226 | The printed state is the one found, and the new state is the guard's transition on a feedback report, branch by branch. |
| `Guard.StarlinkReconfigurationGuard.UpdateCurrentFeedbackTime` | additional_code/libwebrtc_diffs/modifications.diff:1228-1230 | Only the feedback time changes. |
| `Guard.StarlinkReconfigurationGuard.IgnoreSampleWithDelay` | additional_code/libwebrtc_diffs/modifications.diff:1232-1262 | The answer and the new state are the guard's transition on a delay sample. |
| `Guard.StarlinkReconfigurationGuard.JustFinishedReconfig` | additional_code/libwebrtc_diffs/modifications.diff:1264-1270 | Answers whether an episode has ended since the last such answer, and only forgets that. |
| `Guard.StarlinkReconfigurationGuard.constructor` | additional_code/libwebrtc_diffs/modifications.diff:1316-1326 | The guard starts in the normal state with nothing pending. |
| `GuardTiming.EpisodesTimed` | additional_code/libwebrtc_diffs/modifications.diff:1204-1262 | In every run with feedback times that do not go back: a gap detected at td is confirmed only at tc in [td, td + timer), samples are swallowed only in [tc, tc + pause), an episode runs out only from tc + pause on, and no gap is detected before the cooldown left by the last episode. |
| `GuardTiming.CompletionsApart` | additional_code/libwebrtc_diffs/modifications.diff:1242-1249 | The i-th and j-th episodes ended by a negative delay are at least (j - i) cooldowns apart, whatever runs out in between. |
| `GuardTiming.CooldownKeptIff` | additional_code/libwebrtc_diffs/modifications.diff:1305 | However a run goes on from any of its points without another episode running out, the confirmed gaps are a cooldown apart, as the header comment says: exactly if no episode of the run runs out less than a cooldown after its confirmation. |
| `GuardTiming.ConfirmsApart` | additional_code/libwebrtc_diffs/modifications.diff:1305 | In runs without such an early end the i-th and j-th confirmed gaps are at least (j - i) cooldowns apart. |
| `GuardTiming.CooldownIffCompleted` | additional_code/libwebrtc_diffs/modifications.diff:1208-1214 | An episode ends only by running out at a report, which clears the cooldown, or by a negative delay, which sets it. |
| `GuardTiming.ConfirmedWithinCooldown` | additional_code/libwebrtc_diffs/modifications.diff:1208-1214 | A run with two gaps confirmed 801 ms apart, against the header comment's 10 s. |
| `GuardTiming.MarksExact` | additional_code/libwebrtc_diffs/modifications.diff:1173-1262 | In every run the next event does to the episode exactly what the marks so far call for: a late report after the cooldown detects, the first sample delayed enough confirms, every sample until the end is swallowed, the first negative delay completes, else the first report after the pause lets it run out. |
| `GuardTiming.ReprobeIffEnded` | additional_code/libwebrtc_diffs/modifications.diff:1264-1270 | A poll answers yes exactly if an episode has ended since the last poll. |
| `GuardTrace.Collector.Read` | internal/cases/libwebrtc_video.go:189-310 | The reader loop records, with its time, exactly each accepted confirmed line whose accepted predecessor is not confirmed, and stops at a malformed probe line. |
| `GuardTrace.EdgesExact` | internal/cases/libwebrtc_video.go:284-292 | The recorded positions are all those and no others, in ascending order. |
| `GuardTrace.LabelsExact` | additional_code/libwebrtc_diffs/modifications.diff:1173-1195 | In every run each feedback report prints the word for what the marks so far say: a gap detected, confirmed, or neither; nothing else prints. |
| `GuardTrace.TriggersAtEdges` | internal/cases/libwebrtc_video.go:289-291 | The recorded times are the times of the lines at these positions. |
| `GuardTrace.SkippedAnywhere` | internal/cases/libwebrtc_video.go:262-308 | Other lines, malformed statistics, malformed guard lines and readable probes have no effect on what is accepted, wherever they come. |
| `GuardTrace.AcceptedStretch` | internal/cases/libwebrtc_video.go:265-285 | The accepted lines are an unbroken stretch of the guard's lines that starts with the first one after the first GCC statistics, and goes to the last unless a malformed line ends the reading; for a receiver there are none. |
| `GuardTrace.BlocksAreEpisodes` | additional_code/libwebrtc_diffs/modifications.diff:1173-1195 | A block of confirmed lines starts exactly where an episode was confirmed since the line before, and no second confirmation falls inside a block. |
| `GuardTrace.TriggersAreEpisodes` | internal/cases/libwebrtc_video.go:273-293 | The triggers are exactly the confirmed episodes that are still confirmed at the next report, of those whose block starts after the first accepted line; two triggers are never the same episode. |
| `DetectorBuffer.ReconfigurationDetector.constructor` | additional_code/libwebrtc_diffs/modifications.diff:1133-1140 | An empty buffer of 9600 zeros, no detections, no prediction. |
| `DetectorBuffer.ReconfigurationDetector.UpdateDelayTrend` | additional_code/libwebrtc_diffs/modifications.diff:763-783 | The chronological window loses its oldest sample and gains the size of the new one; the counters follow the thresholds. |
| `DetectorBuffer.ReconfigurationDetector.MeanOf` | additional_code/libwebrtc_diffs/modifications.diff:805-810 | The loop over the raw circular buffer yields the mean of the chronological window. |
| `DetectorBuffer.ReconfigurationDetector.VarianceOf` | additional_code/libwebrtc_diffs/modifications.diff:812-818 | Likewise the variance. |
| `DetectorBuffer.ReconfigurationDetector.Correlate` | additional_code/libwebrtc_diffs/modifications.diff:824-838 | The loop over circular indices yields the autocorrelation of the chronological window at a lag, or no number if the variance is zero. |
| `DetectorBuffer.ReconfigurationDetector.GetCorrelation` | additional_code/libwebrtc_diffs/modifications.diff:841-849 | The memoised form answers as the direct one and keeps the cache right. |
| `DetectorBuffer.ReconfigurationDetector.FindPeaks` | additional_code/libwebrtc_diffs/modifications.diff:858-868 | The lags collected are exactly those of 400 to 3600 with a correlation above 0.02. |
| `DetectorBuffer.StrongestPeak` | additional_code/libwebrtc_diffs/modifications.diff:902-904 | The lag of greatest correlation, and the least of several. |
| `DetectorBuffer.ReconfigurationDetector.FindHarmonics` | additional_code/libwebrtc_diffs/modifications.diff:908-926 | All harmonics in the 10 to 90 second range, with their correlations, and only these. |
| `DetectorBuffer.SelectBest` | additional_code/libwebrtc_diffs/modifications.diff:928-950 | The shortest clear subharmonic if there is one, otherwise the candidate of greatest absolute correlation; always between 10 and 90 seconds. |
| `DetectorBuffer.ReconfigurationDetector.RecentAverageOf` | additional_code/libwebrtc_diffs/modifications.diff:1062-1089 | The loop from the newest detection back yields the average defined on the history. |
| `DetectorBuffer.ReconfigurationDetector.FoldAt` | additional_code/libwebrtc_diffs/modifications.diff:1001-1005 | Indices computed with 64-bit wrap-around stay in the buffer, and the sum is that of the samples at this offset of every turn, counted back from the newest. |
| `DetectorBuffer.ReconfigurationDetector.FoldPeak` | additional_code/libwebrtc_diffs/modifications.diff:996-1010 | The offset and value found are the peak of the folded window. |
| `DetectorBuffer.Unwrapped` | additional_code/libwebrtc_diffs/modifications.diff:1003 | The intermediate results may wrap around; the index comes out as in unbounded arithmetic. |
| `DetectorBuffer.ReconfigurationDetector.UpdateDetection` | additional_code/libwebrtc_diffs/modifications.diff:785-1033 | One pass reads the window once, finds in it what it should, changes history and prediction accordingly, and keeps every detected period between 2 and 90 seconds and at most 21 detections. |
| `DetectorBuffer.ReconfigurationDetector.WithoutPeriod` | additional_code/libwebrtc_diffs/modifications.diff:870-900 | The three cases without a significant correlation. |
| `DetectorBuffer.ReconfigurationDetector.WithPeriod` | additional_code/libwebrtc_diffs/modifications.diff:952-1032 | The cases with a best period: new, similar after division by 1 to 5, reset, or predicted. |
| `DetectorBuffer.ReconfigurationDetector.PredictNext` | additional_code/libwebrtc_diffs/modifications.diff:996-1030 | The prediction from the folded window, or none below 0.04. |
| `DetectorTheorems.HistoryPlausible` | additional_code/libwebrtc_diffs/modifications.diff:785-1033 | In every reachable state detected periods are in [2, 90] s, at most 21 are kept, a nonzero recent average is in [2, 90] s, and so is the period of every prediction, including one carried over from an average. |
| `DetectorTheorems.TrimKeepsAverage` | additional_code/libwebrtc_diffs/modifications.diff:789-791 | Dropping old detections turns a nonzero average into zero exactly if none of those kept found a period. |
| `DetectorPasses.TrimIsNewest` | additional_code/libwebrtc_diffs/modifications.diff:789-791 | The detections kept are the newest, 20 if there are as many. |
| `DetectorPasses.FoundIsStored` | additional_code/libwebrtc_diffs/modifications.diff:953-994 | A period found is stored divided by the least of 1 to 5 that brings it within a second of the recent average, marked adjusted unless that is 1, and a prediction then has the new average as its period; if none does, it is stored as it is and there is no prediction. |
| `DetectorPasses.NothingFound` | additional_code/libwebrtc_diffs/modifications.diff:870-900 | Without a significant lag, three misses in a row leave only this one in the history, and three hits put a prediction that has passed off by the recent average. |
| `DetectorPasses.NothingLookedFor` | additional_code/libwebrtc_diffs/modifications.diff:785-803 | After two minutes without a peak the pass is a miss and the prediction stays. |
| `Detector.AveragePlausible` | additional_code/libwebrtc_diffs/modifications.diff:1062-1089 | The average of plausible periods is plausible, or zero exactly if nothing was detected or five adjusted detections in a row reset it. |
| `DetectorTheorems.TallyMeans` | additional_code/libwebrtc_diffs/modifications.diff:1062-1089 | The average is over all detected periods, or over those newer than one that is more than a second above their average; it is reset by five adjusted detections in a row. |
| `DetectorTheorems.WindowIsHistory` | additional_code/libwebrtc_diffs/modifications.diff:763-783 | For every history the window is the last 9600 sizes after zeros, the index and peak counter follow from the samples, and enough data is collected exactly from the 2400th sample on. |
| `DetectorTheorems.NoNumberIffConstant` | additional_code/libwebrtc_diffs/modifications.diff:837 | The correlation is not a number exactly if all samples in the window are equal. |
| `DetectorCorrelation.PeriodCorrelates` | additional_code/libwebrtc_diffs/modifications.diff:824-838 | A window of several equal periods has correlation 1 at their length, unless it is constant. |
| `DetectorCorrelation.LevelIsFree` | additional_code/libwebrtc_diffs/modifications.diff:824-838 | Adding a constant to all samples changes no correlation. |
| `DetectorCorrelation.UnitIsFree` | additional_code/libwebrtc_diffs/modifications.diff:824-838 | Nor does scaling them by a nonzero factor. |
| `DetectorTheorems.FoldingCovers` | additional_code/libwebrtc_diffs/modifications.diff:1000-1004 | Every one of the turns * interval most recent samples is read at some offset and turn ... |
| `DetectorTheorems.FoldingOnce` | additional_code/libwebrtc_diffs/modifications.diff:1000-1004 | ... and at no other. |
| `DetectorTheorems.FoldingConserves` | additional_code/libwebrtc_diffs/modifications.diff:1000-1009 | The folded values of all offsets add up to the sum of these samples. |
| `DetectorTheorems.PeakIsGreatest` | additional_code/libwebrtc_diffs/modifications.diff:998-1009 | The peak is the greatest folded value at its least offset, or zero if none is positive. |
| `DetectorTheorems.NextPeakAhead` | additional_code/libwebrtc_diffs/modifications.diff:996-1030 | The interval is the average to the nearest sample, 80 to 3600 of them, at least two turns are folded, and the predicted peak is 1 to interval samples ahead, so at most 90 s. |
| `DetectorPasses.PredictedIff` | additional_code/libwebrtc_diffs/modifications.diff:996-1020 | There is a prediction exactly if some offset folds to at least 0.04. |
| `DetectorTheorems.AnnouncedIff` | additional_code/libwebrtc_diffs/modifications.diff:1019-1024 | The stored prediction is the announced one exactly if the peak of the folded window is a multiple of 40 samples ahead; otherwise it is earlier, by less than a second. |
| `DetectorTheorems.AnnouncedOtherwise` | additional_code/libwebrtc_diffs/modifications.diff:1019-1024 | A window whose next peak is announced 14.975 s ahead and stored 14 s ahead. |
| `DetectorTheorems.AveragesAsStatedIff` | additional_code/libwebrtc_diffs/modifications.diff:1063-1089 | On any history the average is taken over what the comment says, stopping at the first detection not within a second of the others, exactly if no detection lies more than a second below the average of those after it. |
| `DetectorPulses.PulsesDetected` | additional_code/libwebrtc_diffs/modifications.diff:858-950 | In a window of two pulses at a distance of 400 to 3600 samples the detector finds that distance and no other as the period. |
| `DetectorPulses.EchoDetected` | additional_code/libwebrtc_diffs/modifications.diff:902-950 | A window in which 20 s correlate most and 10 s are found, since they correlate clearly. |
| `DetectorPulses.PeriodStandsOut` | additional_code/libwebrtc_diffs/modifications.diff:858-950 | The period found correlates by more than 0.15 in size, or at least as much as any lag looked at and the harmonics of the lag that correlates most. |
| `DetectorPulses.NothingStandsOut` | additional_code/libwebrtc_diffs/modifications.diff:858-870 | Nothing is found exactly if no lag of 400 to 3600 correlates by more than 0.02. |
| `DetectorPulses.AveragesFarBelow` | additional_code/libwebrtc_diffs/modifications.diff:1063-1073 | Two windows in which 15 s and 50 s are found; a pass over each leaves a history that averages 32.5 s, where the comment says 50 s. |
| `StatisticsCodec.Codec.constructor` | additional_code/gcc-tester/syncodecs.cpp:222-235 | The codec starts at 100 bps, with a burst whose first frame is already taken. |
| `StatisticsCodec.Codec.SetTargetRate` | additional_code/gcc-tester/syncodecs.cpp:239-268 | Whether a request is accepted, what rate results and what the waiting time and burst become. |
| `StatisticsCodec.Codec.NextPacketOrFrame` | additional_code/gcc-tester/syncodecs.cpp:270-303 | Size and interval of the next frame, and what remains of waiting time and burst. |
| `StatisticsCodec.RateEnvelope` | additional_code/gcc-tester/syncodecs.cpp:239-268 | After k accepted updates by requests of at least 100 bps that are no big change, the rate is in [r(1-p)^k, r(1+p)^k]. |
| `StatisticsCodec.UpdatesSpaced` | additional_code/gcc-tester/syncodecs.cpp:240-245 | k accepted updates take at least (k - 1) * (updateInterval - EPSILON) of codec time. |
| `StatisticsCodec.RateOverTime` | additional_code/gcc-tester/syncodecs.cpp:239-268 | In frames that take less than n update intervals (less EPSILON each), requests of at least 100 bps that are no big change leave the rate in [r(1-p)^n, r(1+p)^n]. |
| `StatisticsCodec.OpensAgainIff` | additional_code/gcc-tester/syncodecs.cpp:240-245 | After an accepted update and some frames a request is accepted exactly if these frames have taken the update interval, but for EPSILON. |
| `StatisticsCodec.RatioLimitIff` | additional_code/gcc-tester/syncodecs.h:483-488 | One update keeps to the documented ratio exactly unless the request is under the lower bound while 100 bps is over the upper one. |
| `StatisticsCodec.RequestTakenIff` | additional_code/gcc-tester/syncodecs.cpp:239-268 | An accepted request becomes the rate exactly if it is a big change, the ratio is off, or it is within the ratio. |
| `StatisticsCodec.NearestTaken` | additional_code/gcc-tester/syncodecs.cpp:250-265 | Otherwise, from 100 bps on, the rate is the nearest one to the request within the ratio. |
| `StatisticsCodec.RequestEffects` | additional_code/gcc-tester/syncodecs.cpp:239-268 | A request that is too small or too early changes nothing; any other restarts the waiting time, and one that differs by more than the big ratio also the burst. |
| `StatisticsCodec.SteadyRate` | additional_code/gcc-tester/syncodecs.cpp:270-303 | In the steady phase the frames of a second amount to the rate. |
| `StatisticsCodec.LoweringRaises` | additional_code/gcc-tester/syncodecs.cpp:262 | A request to lower the rate from 60 to 10 bps raises it to 100. |
| `StatisticsCodec.TransientBudget` | additional_code/gcc-tester/syncodecs.h:456-465 | A whole transient of n frames at one rate amounts to max(n steady frames, I-frame + 0.2 (n - 1) steady frames), and cutting to bytes loses less than n bytes. |
| `ShapedPacketizer.Packetizer.constructor` | additional_code/gcc-tester/syncodecs.cpp:173-180 | The first frame is taken and its first packet cut. |
| `ShapedPacketizer.Packetizer.NextPacketOrFrame` | additional_code/gcc-tester/syncodecs.cpp:186-219 | The next packet and what remains; the inner codec is asked exactly when nothing remains, at the rate corrected by the last overhead, and no time is left over then. |
| `ShapedPacketizer.FrameConserved` | additional_code/gcc-tester/syncodecs.cpp:204-218 | The packets of a frame join to the frame, all but the last are full, none is empty, there are ceil(size / payload), and their intervals add up to the frame's. |
| `ShapedPacketizer.EvenlySpread` | additional_code/gcc-tester/syncodecs.cpp:204-218 | All packets of a frame have the same interval, the frame's divided by their number. |
| `ShapedPacketizer.RateOnTarget` | additional_code/gcc-tester/syncodecs.cpp:191-200 | Asked at the corrected rate, frames of the size of the last one keep the target rate together with their overhead. |
| `ShapedPacketizer.RunConserves` | additional_code/gcc-tester/syncodecs.cpp:186-219 | Over any run the packets sent and still owed are those of the frames taken, in order, and the left-over time is zero at every new frame. |
| `Evaluation.MergeEvents` | analysis/guard_trigger_eval.py:68-79 | The loop over the sorted events yields the clusters defined on them. |
| `Evaluation.SortSorts` | analysis/guard_trigger_eval.py:71 | Sorting keeps the events and orders them. |
| `Evaluation.ClustersAreMembers` | analysis/guard_trigger_eval.py:68-79 | The clusters are the events by cluster number, in order: none is lost, doubled or moved. |
| `Evaluation.SameClusterIffConnected` | analysis/guard_trigger_eval.py:68-79 | For any input order, two events are in one cluster exactly if a chain of events with gaps of at most the threshold joins them. |
| `Evaluation.ClustersApart` | analysis/guard_trigger_eval.py:75-78 | Events of different clusters are more than the threshold apart. |
| `Evaluation.CountTrueFalsePositives` | analysis/guard_trigger_eval.py:48-65 | Counts the triggers near an event; every trigger is a true or a false positive, also without events or triggers. |
| `Evaluation.TruePositivesAre` | analysis/guard_trigger_eval.py:48-65 | The true positives are the triggers with an event in the window around them. |
| `Evaluation.CountFalseNegatives` | analysis/guard_trigger_eval.py:82-98 | Counts the clusters without a trigger near one of their events. |
| `Evaluation.MissedAre` | analysis/guard_trigger_eval.py:82-98 | The false negatives are the clusters of which no event has a trigger in the window around it. |
| `EvaluationTheorems.ClustersCounted` | analysis/guard_trigger_eval.py:132-157 | If twice the window is at most the merge threshold, clusters <= true positives + false negatives. |
| `EvaluationTheorems.AccountedIff` | analysis/guard_trigger_eval.py:184-190 | That bound holds for all triggers and events exactly if twice the window is at most the merge threshold, or the window is negative. |
| `EvaluationTheorems.OneTriggerOneCluster` | analysis/guard_trigger_eval.py:92-97 | One trigger then matches at most one cluster. |
| `EvaluationTheorems.OneTriggerTwoClusters` | analysis/guard_trigger_eval.py:92-97 | Otherwise there are a trigger and two events in two clusters that break the bound. |
| `EvaluationTheorems.NoneIffAllMissed` | analysis/guard_trigger_eval.py:48-98 | There is no true positive exactly if every cluster is missed. |
| `Periodic.GeneratePeriodicReconfigs` | analysis/guard_trigger_eval.py:28-45 | The nested loops yield the times defined minute by minute; none if the end is not after the start. |
| `Periodic.ExactlyThePeriodicTimes` | analysis/guard_trigger_eval.py:28-45 | For offsets below a minute the times are exactly those in [start, end] that are a whole minute plus an offset. |
| `Periodic.InOrder` | analysis/guard_trigger_eval.py:36-44 | With ascending offsets they are ascending, none twice. |
| `Feedback.ExtractSSRCs` | internal/pion/scream/sender_interceptor_linux.go:159-183 | The walk with its seen-map yields the first occurrences of the SSRCs it passes, or panics exactly if a read leaves the packet. |
| `Feedback.DedupExact` | internal/pion/scream/sender_interceptor_linux.go:164-170 | First occurrences: the same members, none twice. |
| `Feedback.DedupInOrder` | internal/pion/scream/sender_interceptor_linux.go:164-170 | They come in the order in which they first occur. |
| `Feedback.WalkFindsStreams` | internal/pion/scream/sender_interceptor_linux.go:151-183 | On every packet that encodes a report by section 3.1 of RFC 8888, byte by byte and most significant first, the walk stays inside and passes exactly the SSRCs the decoded report lists. |
| `Feedback.SkipIff` | internal/pion/scream/sender_interceptor_linux.go:172-179 | The walk steps over a block exactly unless the padded 16-bit count wraps around, at 65535. |
| `SdpFraming.Escape` | additional_code/gcc-tester/webrtc_test_peer.cpp:307-314 | The loop yields the escaped text. |
| `SdpFraming.Unescape` | additional_code/gcc-tester/main.cpp:138-157 | The index loop with look-ahead yields the unescaped text. |
| `SdpFraming.ParseCommand` | additional_code/gcc-tester/main.cpp:90-98 | The line is taken apart at its second slash; other lines are refused. |
| `SdpFraming.TakenIff` | additional_code/gcc-tester/main.cpp:90-98 | A line is taken exactly if it is the prefix, a kind without a slash, a slash and a rest; the text is the rest unescaped. |
| `SdpFraming.RefusedIff` | additional_code/gcc-tester/main.cpp:90-98 | It is refused exactly if it lacks the prefix or the second slash. |
| `SdpFraming.NoLineBreaks` | additional_code/gcc-tester/webrtc_test_peer.cpp:307-316 | The escaped text has no CR and no LF. |
| `SdpFraming.EscapeIsTransparent` | additional_code/gcc-tester/main.cpp:138-157 | Unescaping an escaped text does what unescaping the text itself does. |
| `SdpFraming.RoundTripIff` | additional_code/gcc-tester/main.cpp:138-157 | Unescaping undoes escaping exactly on texts without a backslash directly before the letter r or n. |
| `SdpFraming.DeliveredAs` | additional_code/gcc-tester/main.cpp:90-98 | For types without a slash the type arrives as sent, and the description as if it had been unescaped itself. |
| `SdpFraming.DeliveredIff` | additional_code/gcc-tester/main.cpp:90-98 | For types without a slash, type and description arrive as sent exactly on those texts. |
| `SdpFraming.ChangedOnTheWay` | additional_code/gcc-tester/main.cpp:138-157 | A backslash and the letter r arrive as a carriage return. |
| `FieldTrials.FieldTrialArgument` | internal/cases/libwebrtc_video.go:152-161 | The argument is key/value/ for each configured trial, in the order visited, and empty without any. |
| `FieldTrials.SelectedAre` | internal/cases/libwebrtc_video.go:152-161 | The trials are exactly the entries with the prefix, without it. |
| `FieldTrials.ParseFieldTrials` | additional_code/gcc-tester/webrtc_test_peer.h:116-139 | The loop ends and yields the pairs read, later ones replacing earlier ones, the empty key dropped. |
| `FieldTrials.ParsedIsPrinted` | additional_code/gcc-tester/webrtc_test_peer.h:116-139 | Slash-free trials are read back as they were printed. |
| `FieldTrials.PrintedBackIff` | additional_code/gcc-tester/webrtc_test_peer.h:116-139 | Printed trials are read back exactly if no key and no value has a slash. |
| `FieldTrials.TrialsDelivered` | internal/cases/libwebrtc_video.go:152-161 | For any map of slash-free keys and values and any order of visiting it, parsing gives the map without the empty key. |
| `FieldTrials.ConfiguredTrials` | internal/cases/libwebrtc_video.go:152-161 | The whole way: a configuration without slashes in its trials, visited in any order, printed and parsed gives exactly the trials it names, without the empty key. |

## Left out

- WebSocket, HTTP, gRPC, JSON, file and process handling: only the order of messages and the bytes stored are kept. Channels are unbounded queues, so blocking sends are not modelled.
- Disconnects, reconnects, idle extra peers and cases with different sets of peers: the listener does not promise lockstep there; an extra peer that registers between a Configure and the first "configuring" would cause a second Configure.
- Failures of a peer: its own fatal exits (reading its results, deleting a sent file) and executors that fail to start or stop.
- Executors are assumed to send signals only between Start and Stop, and finitely many.
- The names of result directories carry a time in seconds; they are identified with their case, so two cases whose names and times coincide are not modelled.
- ChunkTransfer.Read: reads are full where possible, as for regular files; short reads of other files are not modelled.
- ChunkTheorems.RoundTrip: no other transfer writes to the path (`SharedPath` says what two do to one), and chunks of one key arrive in order, as one connection delivers them.
- The path of a chunked file is taken as its directory, a slash and its name; names that path.Join would clean are not modelled.
- ProtocolFiles.FilesRestored: no two files have one path (`SharedPath` says what two do to one) and no two peers one key (`KeysEqualIff` says when they would), and the chunks are those of whole files, as the client sends them. Without that the closed system itself only counts a peer's transfers; a chunk the server refuses ends nothing there.
- The map of connections (internal/management/server.go:214, 228, 296, 320) and the other fields of the server are used by all connections without a lock: two of them at the same moment can end the program or lose an update. Here each step is atomic.
- The orchestrator exits one second after it has queued the Shutdowns (cmd/orchestrator/orchestrator.go:96); that second is taken as long enough for them to be sent.
- Rounding of floats and doubles, and overflow of conversions between them and integers.
- StatisticsCodec.Codec.NextPacketOrFrame: the random noise of frame sizes and intervals is not modelled.
- The codecs `PerfectCodec`, `SimpleFpsBasedCodec` and `SimpleContentSharingCodec`.
- ShapedPacketizer.Packetizer.NextPacketOrFrame: the inner codec is any source of nonempty frames with intervals that are not negative.
- The thread of the detector, its locks and clock: a pass reads a snapshot, and the time is an argument. `is_in_reconfiguration`, which only consumes the prediction, is not modelled.
- What the congestion controller does with the answers of guard and detector: DelayBasedBwe and the trendline estimator are not part of this model.
- ManagementServer.Server.OnResults: the metadata and the additional files of the message, which go to the same directory.
- Detector: a comment speaks of the last 3 adjusted detections where the code counts 5 (modifications.diff:1078-1079); the code is followed.
- The collector's return at the first line after a stop has been requested.
- GuardTrace.Collector.Read: lines are given by kind and payload; splitting their text, and the statistics and probe values they carry, are not modelled.
- Lines of the tester that end the reading because a signal could not be sent.
- Feedback: the decoder of the RTCP library is not part of this model; a packet and the report it encodes are related field by field.
- Interpretation of the parsed session descriptions, and the other commands of the tester.
- Time zones and data frames of the evaluation; its timestamps are integers.
- Plotting, weather data, generated code, container and build files.
