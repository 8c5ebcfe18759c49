# Verified models of the operator scripts

These Dafny modules model the scripts that move data of record: the durable update queue, the atomic installation of a
migrated database, the building of verified backups and candidates, the journaled removal of media files, the resumable
import of a duplicate index, the collection of a server snapshot, the choice of calibration pairs, the guarded account
import, and the plan for replaying cached responses. Each model takes the branches, constants and error conditions of the
script, and the lemmas say what the scripts promise over whole runs, with crashes, failing operations and interference.

`dafny verify dfyconfig.toml` checks the whole project.

## How it is organised

- **Update queue.** `WriterProtocol` (values exchanged with the Writer and their encoding in the result column),
  `UpdateQueue` (the tables and each transaction), `QueueStore` (the store as a class), `QueueLedger` (the skeleton on
  which the safety argument is made), `QueueRuns` (the steps of the whole system, each shown to be a step of the ledger),
  `QueueTheorems` (what holds over every run), `QueueAnswers` and `ResultMeaning` (what answers, requests and results lead
  to, by their literal values), `Coordinator` (the worker as a program whose every execution is a run).
- **Database installation.** `InstallDisk` (files, inodes, and where the owned files are), `CandidateInstall` (checkpoints,
  operations, the environment, the preflight), `InstallProgress` (what each step keeps, on values), `Installer` (the
  program and its promise), `InstallWitness` (runs that lose or misplace a file). `VerifiedBackup` is the sibling that prepares backups and candidates.
- **Media cleanup.** `MediaPaths`, `MediaReferences` (which texts name a path, and the least closure), `MediaPlan`, `CleanupJournal` (the lines),
  `CleanupHistory` (what they mean), `MediaCleaner` (the sessions).
- **Index import.** `GenerationImport` (transactions and invariant), `IndexImporter` (the runs).
- **Snapshot.** `SnapshotPaths`, `SnapshotEncoding`, `SnapshotClosure` (the collection as a function, and what it promises),
  `SnapshotCollector` (the program).
- **Selection, import, replay.** `Calibration`, `Preservation`, `ReplayPlan`.
- **Shared.** `Wrappers` (options and JSON), `Text` (splitting, joining, numerals), `PosixPaths`.

## Assumptions

SHA-256 digests are injective, so contents are identified with their digests. A SQLite transaction is one atomic step.
rename, link and unlink are atomic, and an operation that fails has no effect, except where the installer sets a flag after
it. The exclusive lock leaves one worker process. Deleting a generation row deletes its derived rows, as
`src/dcar_eval/v8/schema_v24.py` declares. Serialising a JSON value and parsing it again is the identity. Other processes
act at the named checkpoints, or between two sessions.

## Where the code does not do what one might expect

- **A rename that can overwrite.** The renames that preserve the source and its sidecars do not look whether the name is
  taken. The files lost are exactly those that stand under such a name in the new backup directory just before the rename
  that takes it (`CandidateInstall.Overwritten`, `Installer.Install`); one put there before the cutover is such a file, on
  every disk that passes the preflight (`InstallWitness.InstallUnderRacer`), and without others in that directory there is
  none (`InstallWitness.KeptOutOverwritesNothing`). No other rename of the installation can replace a file.
- **A candidate that can disappear.** An interruption that comes just after the candidate's old name was removed makes the
  handler remove the formal name too, the last one. This happens exactly under `CandidateInstall.LosesCandidate`
  (`Installer.Install`); the rollback then reports a clean failure (`InstallWitness.InstallInterrupted`).
- **A formal database left aside.** An interruption that comes between the source's rename and its flag makes the rollback
  believe that the source was never moved: a clean failure, with the formal path empty, exactly when
  `CandidateInstall.AheadOf` says so. After a sidecar's rename the same interruption is noticed, and after the link it does
  no harm (`Installer.Install`, `InstallWitness.InstallInterrupted`).
- **A journal that can never be resumed.** A crash inside the very first line of the cleanup journal leaves a file that
  every later session refuses (`MediaCleaner.TornHeaderRefused`). No other crash does: a session is refused exactly when it
  finds text without a whole first line, and only after an earlier session died in that line (`MediaCleaner.Campaign`).
- **Whole tables are compared.** The index import compares whole derived tables, so it goes through exactly when the other
  generations' rows agree in the live database and the candidate, and the receipt can be recovered after the switch exactly
  when the other generation rows agree too (`IndexImporter.Importer.Run`, with `IndexImporter.RefusedForForeignRows` and
  `IndexImporter.InstalledButNotRecovered`).
- **Promoted without a second look.** A reusable file registered by the database is not read. If a later reference makes it
  required, references that agreed with the registration need not agree with the file (`SnapshotClosure.TrapExists`). All
  agree exactly when there is no required file that the database registers, that an image's manifest names, and of which a
  required JSON file agrees with the registration alone (`SnapshotClosure.CollectedSafe`,
  `SnapshotClosure.RiskComesTrue`).
- **An unhandled error.** A reference consisting of slashes and single dots, not starting with a slash, raises an index error
  instead of the script's own (`SnapshotPaths.IndexErrorExactly`).
- **Blind spots of the cleanup.** A backup job loses track of a file when it fails between making it and knowing its name or
  identity; the file then remains and the failure is reported as a clean one. The same holds for a new lock file between
  its creation and its writing. The migration from 19 to 20 keeps its raw copies after any failure, as it says, and a lock
  file that could not be confirmed at the end stays (`VerifiedBackup.Remains`, `VerifiedBackup.Produce`).
- **Not unique.** The calibration data set is refused as not unique exactly when a manual negative is among the positives
  that the round robin chooses; that takes a manual negative that is a manual positive or in a group of equal content
  (`Calibration.UniqueExactly`, `Calibration.BuildDataset`, `Calibration.RefusedAsNotUnique`).

## Model

| member | source | states |
|---|---|---|
| WriterProtocol.PointerRoundTrip | scripts/content_update_coordinator.py:40-54 | A command stored in the result column is read back as exactly that command, and only under its own content. |
| WriterProtocol.PointerExactly | scripts/content_update_coordinator.py:40-54 | By its members: exactly the contract's text, a positive run and the job's own content make a stored command. |
| WriterProtocol.ColumnRoundTrip | scripts/content_update_coordinator.py:260-276 | The column that holds a command and a result gives back both: the stored command and the result shown to the browser. |
| WriterProtocol.SafeResultShape | scripts/content_update_coordinator.py:127-167 | A sanitised result has only the public members, a known status, and never a member that could be taken for a stored command. |
| WriterProtocol.SafeResultIdempotent | scripts/content_update_coordinator.py:127-167 | Sanitising an already sanitised result changes nothing. |
| WriterProtocol.CommandTerminalIsSafe | scripts/content_update_coordinator.py:57-84 | Whatever a finished command hands over is a sanitised result. |
| ResultMeaning.AcceptedExactly | scripts/content_update_coordinator.py:127-167 | Exactly which answers are accepted as a result, by their members; the others are refused or, for values that cannot be looked up, end in an error. |
| ResultMeaning.FloatLimit | scripts/content_update_coordinator.py:132-133 | From which value on an integer cost cannot be looked at as a float. |
| ResultMeaning.AcceptedMeaning | scripts/content_update_coordinator.py:127-167 | What becomes of an accepted result: its status, its cost and its currency, and what stands for the others. |
| ResultMeaning.AcceptedParts | scripts/content_update_coordinator.py:134-157 | And of its stages and metrics, member by member: which texts and fields are kept. |
| ResultMeaning.AcceptedMedia | scripts/content_update_coordinator.py:158-167 | And of what it says about media. |
| UpdateQueue.EnqueueConsistent | scripts/content_update_coordinator.py:278-301 | A submission keeps at most one active job per content, at most the maximum of active jobs in all, dense ids, and a request for every job. |
| UpdateQueue.ClaimConsistent | scripts/content_update_coordinator.py:317-329 | Claiming, with the expiry of earlier days' jobs, keeps the queue invariant. |
| UpdateQueue.AcceptConsistent | scripts/content_update_coordinator.py:331-346 | Storing an acknowledgement keeps the queue invariant. |
| UpdateQueue.FinishConsistent | scripts/content_update_coordinator.py:355-369 | Finishing a job with a proper ending keeps the queue invariant. |
| UpdateQueue.MarkInterruptedConsistent | scripts/content_update_coordinator.py:231-239 | Marking interrupted jobs keeps the queue invariant. |
| UpdateQueue.RequestIdempotent | scripts/content_update_coordinator.py:278-301 | Repeating a recorded request returns its job, or a conflict for another content, without a write. |
| UpdateQueue.AcceptedIsRecorded | scripts/content_update_coordinator.py:278-301 | An accepted submission is recorded under its request id and names an existing job of its content. |
| UpdateQueue.ClaimTakesToday | scripts/content_update_coordinator.py:317-329 | The claimed job is the first queued one of the business day, and no queued job of another day is left. |
| QueueAnswers.SubmissionOutcome | scripts/content_update_coordinator.py:278-301 | By the jobs: a new request is absorbed by the one job that occupies its content, is refused as busy exactly when fifty contents are occupied, and otherwise is a new job of the day. |
| QueueAnswers.FinishedRow | scripts/content_update_coordinator.py:355-369 | By the row: a running job ends succeeded only with a result that says so and without an error, and no other row changes. |
| QueueAnswers.ClaimedRows | scripts/content_update_coordinator.py:317-329 | What claiming makes of each row: queued jobs of other days fail as expired, the claimed one runs, and no other changes. |
| QueueAnswers.ShanghaiDay | scripts/content_update_coordinator.py:90-91 | A business day begins at midnight in Shanghai and lasts 24 hours. |
| QueueStore.ListingShowsEveryActiveJob | scripts/content_update_coordinator.py:310-315 | A listing of at least the maximum number of active jobs shows every active job. |
| QueueStore.ListingExactly | scripts/content_update_coordinator.py:310-315 | A listing without a limit holds every job once, active ones first and newer ones before older ones; a limit cuts it. |
| QueueStore.SweepSeesEveryAcknowledgedJob | scripts/content_update_coordinator.py:348-353 | The limit of the sweep never drops an acknowledged running job. |
| QueueStore.QueueStore.Submit | scripts/content_update_coordinator.py:278-301 | The transaction does to the tables what the enqueue specification says, keeps the invariant, and shows the job it accepted. |
| QueueStore.QueueStore.Store | scripts/content_update_coordinator.py:278-301 | The writes of a submission equal the enqueue specification. |
| QueueStore.QueueStore.MarkInterruptedRows | scripts/content_update_coordinator.py:231-239 | The loop over the rows equals the specification of interruption. |
| QueueStore.QueueStore.ClaimNext | scripts/content_update_coordinator.py:317-329 | The transaction equals the claim specification. |
| QueueStore.QueueStore.AcceptCommand | scripts/content_update_coordinator.py:331-346 | The transaction equals the acceptance specification and reports whether the acknowledgement was valid. |
| QueueStore.QueueStore.FinishJob | scripts/content_update_coordinator.py:355-369 | The transaction equals the finish specification. |
| QueueStore.QueueStore.PendingCommands | scripts/content_update_coordinator.py:348-353 | The sweep's list holds exactly the running jobs with a stored command, in order. |
| QueueStore.QueueStore.List | scripts/content_update_coordinator.py:310-315 | The listing is the newest rows first, cut at the limit. |
| QueueLedger.SubmitsKeeps | scripts/content_update_coordinator.py:278-301 | A submission keeps the safety ledger: one occupant per content, every doubtful job occupying its content. |
| QueueLedger.ClaimsKeeps | scripts/content_update_coordinator.py:317-329 | A claim keeps the ledger: claimed ids rise, claims fall on the day of submission. |
| QueueLedger.PostsKeeps | scripts/content_update_coordinator.py:395-404 | A POST keeps the ledger: POSTs go to rising job ids, and their contents stay as they were. |
| QueueLedger.RepliesKeeps | scripts/content_update_coordinator.py:405-439 | Recording an answer keeps the ledger: kind and fate of the job agree. |
| QueueLedger.PollsKeeps | scripts/content_update_coordinator.py:385-394 | Following up an acknowledged job keeps the ledger. |
| QueueLedger.InterruptsKeeps | scripts/content_update_coordinator.py:231-239 | Interruption keeps the ledger and leaves no unacknowledged job. |
| QueueLedger.StopsKeeps | scripts/content_update_coordinator.py:441-457 | A crash or the end of the worker keeps the ledger: the job in its hands is in doubt. |
| QueueLedger.DoubtBars | scripts/content_update_coordinator.py:286-300 | A job in doubt bars its content: the worker is never busy with another job of it. |
| QueueLedger.RepostOnlyAfterDefinite | scripts/content_update_coordinator.py:286-300 | When a POST leaves for a content posted before, the earlier job is over and its outcome was definite. |
| QueueRuns.ReplyRow | scripts/content_update_coordinator.py:396-439 | However the Writer answers, only the worker's job changes, it moves forward, and it ends up as the answer's verdict says. |
| QueueRuns.PollRow | scripts/content_update_coordinator.py:385-394 | The answer to a GET changes nothing, or ends exactly the job it was asked for. |
| QueueAnswers.DoubtfulAnswer | scripts/content_update_coordinator.py:400-438 | A lost answer, and every status but 200, 202 and the seven listed rejections, server errors among them, leaves the job in doubt, and no other job changes. |
| QueueAnswers.ServerErrorsAreDoubtful | scripts/content_update_coordinator.py:436-438 | Server errors and redirections are doubtful answers. |
| QueueAnswers.RejectedAnswer | scripts/content_update_coordinator.py:421-434 | Each of the seven listed statuses ends the job as a definite rejection with that status, so that the content is free again. |
| QueueAnswers.AcceptedAnswer | scripts/content_update_coordinator.py:405-411 | A 202 whose body names the Writer's run for this content leaves the job running with exactly that command; any other 202 leaves it in doubt. |
| QueueAnswers.AnsweredWithResult | scripts/content_update_coordinator.py:412-420 | A 200 with an acceptable result ends the job with it, as its status says; any other 200 leaves it in doubt. |
| QueueAnswers.PollLeavesRunning | scripts/content_update_coordinator.py:57-84 | What is unfinished, is blocked with work outstanding, or speaks of another command leaves the job running. |
| QueueAnswers.PollEnds | scripts/content_update_coordinator.py:57-84 | A finished command ends the job with its own status, a failed one or one blocked without work as failed. |
| QueueRuns.SubmitsSimulated | scripts/content_update_coordinator.py:278-301 | The tables' submission is a submission of the ledger. |
| QueueRuns.ClaimsSimulated | scripts/content_update_coordinator.py:317-329 | The tables' claim is a claim of the ledger, and every row moves forward. |
| QueueRuns.RepliesSimulated | scripts/content_update_coordinator.py:396-439 | Recording an answer is a reply step of the ledger with the verdict of that answer. |
| QueueRuns.PollsSimulated | scripts/content_update_coordinator.py:385-394 | A sweep step is a poll of the ledger. |
| QueueRuns.InterruptStep | scripts/content_update_coordinator.py:231-239 | Interruption and reopening leave no unacknowledged job and touch no other. |
| QueueAnswers.InterruptedRows | scripts/content_update_coordinator.py:231-239 | By the rows: an interruption leaves exactly the running jobs without a stored command in doubt, and changes no other. |
| QueueRuns.EveryStepIsGood | scripts/content_update_coordinator.py:176-456 | Every step of the system keeps the invariant, moves every row forward, and only appends requests, claims and POSTs. |
| QueueTheorems.RunInv | scripts/content_update_coordinator.py:176-456 | The invariant holds in every state of every run, with crashes and reopenings anywhere. |
| QueueTheorems.RunMovesForward | scripts/content_update_coordinator.py:176-456 | Between any two states of a run rows only move forward, and requests, claims and POSTs are only appended. |
| QueueTheorems.EachJobPostedAtMostOnce | scripts/content_update_coordinator.py:395-404 | Over a whole run each job is POSTed at most once: the POSTs' job ids strictly rise. |
| QueueTheorems.AmbiguousPostIsNeverReplayed | scripts/content_update_coordinator.py:231-239 | Once the outcome of a job is in doubt, no later POST of the run, after any crashes, is for its content. |
| QueueAnswers.DoubtfulAnswerBars | scripts/content_update_coordinator.py:400-438 | Over any run: after a lost answer, a server error or any other doubtful one, no later POST is for the content of that job. |
| QueueTheorems.RepostOnlyAfterDefiniteOutcome | scripts/content_update_coordinator.py:286-300 | A content is POSTed again only after every earlier job POSTed for it finished with an outcome the Writer vouched for. |
| QueueTheorems.AmbiguousAnswerLeavesDoubt | scripts/content_update_coordinator.py:400-438 | The answer alone decides: doubtful exactly when the row says so, acknowledged with a stored command, or definitely over. |
| QueueTheorems.ClaimsIncreaseWithinTheirDay | scripts/content_update_coordinator.py:317-329 | Claimed ids strictly rise over a run, and every job is claimed on the business day of its submission. |
| QueueTheorems.RowsArePermanent | scripts/content_update_coordinator.py:331-369 | A finished row never changes, and a stored command stays the same, for the job's own content. |
| QueueTheorems.AtMostThreeChangesPerJob | scripts/content_update_coordinator.py:231-369 | A run changes rows at most three times per job ever submitted. |
| QueueTheorems.RequestNamesOneJobForever | scripts/content_update_coordinator.py:278-301 | A recorded request names one job for ever; asking again at any later time returns it or is refused, without a write. |
| QueueTheorems.AtMostOneUnacknowledged | scripts/content_update_coordinator.py:381-453 | At most one running job lacks a command at any time, and none does while the worker is between jobs. |
| Coordinator.ExtendIsRun | scripts/content_update_coordinator.py:381-456 | Each step that the program takes extends its run by a step of the system. |
| Coordinator.PayloadExactly | scripts/content_update_coordinator.py:385-394 | Only an answer of 200 with a body says something about a command. |
| Coordinator.CrashAnywhere | scripts/content_update_coordinator.py:176-239 | Cut off at any moment, a run goes on with the crash and a new process that finds the tables as they were and leaves no unacknowledged job. |
| Coordinator.Coordinator.Open | scripts/content_update_coordinator.py:176-239 | Opening takes over whatever tables a crash left and leaves no unacknowledged job. |
| Coordinator.Coordinator.Sweep | scripts/content_update_coordinator.py:385-394 | The sweep asks for every acknowledged job, unless an unexpected error interrupts it; what it does is a sequence of poll steps and arriving requests. |
| Coordinator.Coordinator.StoreAnswer | scripts/content_update_coordinator.py:396-438 | The transactions for an answer equal the specification of handling it, or an unexpected error leaves the tables alone. |
| Coordinator.Coordinator.Dispatch | scripts/content_update_coordinator.py:395-439 | Exactly one POST leaves for the claimed job, and its answer is the one recorded, unless an unexpected error intervenes. |
| Coordinator.Coordinator.Serve | scripts/content_update_coordinator.py:395-439 | At most one job is claimed and POSTed and its answer recorded; quiet only when nothing is queued. |
| Coordinator.Coordinator.ProcessOne | scripts/content_update_coordinator.py:381-439 | An iteration extends the run by at most one POST; without an unexpected error every acknowledged job is asked for, a job is claimed, POSTed and its answer recorded, and it is quiet only when nothing is queued. |
| Coordinator.Coordinator.Recover | scripts/content_update_coordinator.py:446-453 | After an unexpected error no unacknowledged job is left, or the worker halts with the tables as they were. |
| Coordinator.Coordinator.Run | scripts/content_update_coordinator.py:441-456 | The loop extends the run whatever happens in its iterations, and looks for a job in every one whose sweep is not interrupted; it ends idle, or halted if the handler of an unexpected error raised one itself. |
| InstallDisk.TagTextInjective | scripts/install_writer_database_candidate.py:2085-2171 | No two preserved or quarantined files share a file name, whatever the database is called. |
| InstallDisk.TagTexts | scripts/install_writer_database_candidate.py:2100-2170 | Preserved files keep their names, and what is set aside says in its name why. |
| InstallDisk.BenignKeepsPlaced | scripts/install_writer_database_candidate.py:84-95 | Interference that spares the owned files leaves each of them where it was. |
| InstallDisk.MoveSource | scripts/install_writer_database_candidate.py:1882-1883 | Renaming the source keeps track of all owned files and loses none. |
| InstallDisk.MoveSidecar | scripts/install_writer_database_candidate.py:1886-1904 | Renaming a sidecar keeps track of all owned files and loses none. |
| InstallDisk.MoveCandidate | scripts/install_writer_database_candidate.py:2111-2120 | Renaming the candidate keeps track of all owned files and loses none. |
| InstallDisk.LinkCandidate | scripts/install_writer_database_candidate.py:1925 | Linking gives the candidate a second name and loses nothing. |
| CandidateInstall.PreflightStarts | scripts/install_writer_database_candidate.py:1742-1822 | The preflight establishes what the transaction needs to know of the disk. |
| CandidateInstall.PreflightExactly | scripts/install_writer_database_candidate.py:1742-1822 | By the files: both databases with the expected digests and a single link each, an empty write-ahead log at most, no journal, no sidecar of the candidate, and none of the new names taken. |
| CandidateInstall.StartAllowsCutover | scripts/install_writer_database_candidate.py:1837-1880 | An undisturbed disk passes the last check before the first rename. |
| CandidateInstall.CutoverExactly | scripts/install_writer_database_candidate.py:1837-1880 | The last look before the first rename passes exactly when both databases and the sidecars are the very files seen before and nothing was added. |
| CandidateInstall.MovesAsFound | scripts/install_writer_database_candidate.py:1837-1883 | Whenever the source is moved, everything was as found at that look, whatever others did. |
| CandidateInstall.DigestsCompared | scripts/install_writer_database_candidate.py:1950-1972 | The comparison after the installation passes exactly when the candidate is at the formal path and the source and all its sidecars are preserved, by their digests. |
| CandidateInstall.BackInPlace | scripts/install_writer_database_candidate.py:2131-2225 | Owned files at their first places, no foreign change and no receipt mean that every path is exactly as before. |
| CandidateInstall.BackWithoutCandidate | scripts/install_writer_database_candidate.py:2131-2225 | The same when the candidate was lost: every other path is as before. |
| CandidateInstall.BackWithoutSource | scripts/install_writer_database_candidate.py:2131-2225 | The same when the source was left in the backup directory. |
| InstallProgress.PreservingLoses | scripts/install_writer_database_candidate.py:1882 | The unchecked rename of the source loses a file exactly when that file stood under the source's name in the backup directory. |
| InstallProgress.PreservingSidecarLoses | scripts/install_writer_database_candidate.py:1901-1903 | So does the rename of a sidecar, with the sidecar's name. |
| InstallProgress.BothUnlinkedRewinding | scripts/install_writer_database_candidate.py:1926-1934 | When the interruption comes just after the unlink, the handler leaves the candidate without a name, in a state from which the rollback starts. |
| InstallProgress.SourceStrayedRewinding | scripts/install_writer_database_candidate.py:1882-1883 | Interrupted between the source's rename and its flag, the installation is in a state from which the rollback starts. |
| InstallProgress.SidecarStrayedRewinding | scripts/install_writer_database_candidate.py:1901-1904 | So it is between a sidecar's rename and its flag. |
| InstallProgress.LinkStrayedRewinding | scripts/install_writer_database_candidate.py:1925-1927 | So it is between the link and its flag. |
| InstallProgress.StraySidecarNoticed | scripts/install_writer_database_candidate.py:2187-2225 | A sidecar that was moved without its flag is missed when the restored files are compared. |
| InstallProgress.RacerAsideHeld | scripts/install_writer_database_candidate.py:2121-2127 | Setting aside what stands at the formal path keeps the rollback invariant, also when it is the candidate's second name. |
| InstallProgress.InterferenceSound | scripts/install_writer_database_candidate.py:84-95 | Interference at a checkpoint keeps the forward invariant. |
| InstallProgress.DatabasePreservedSound | scripts/install_writer_database_candidate.py:1882-1883 | Moving the source aside keeps the forward invariant. |
| InstallProgress.SidecarPreservedSound | scripts/install_writer_database_candidate.py:1886-1904 | Moving a sidecar aside keeps the forward invariant. |
| InstallProgress.LinkedSound | scripts/install_writer_database_candidate.py:1925-1927 | The link keeps the forward invariant and never replaces a file. |
| InstallProgress.UnlinkedSound | scripts/install_writer_database_candidate.py:1926-1934 | Dropping either of the candidate's two names keeps the forward invariant. |
| InstallProgress.KeptInPlace | scripts/install_writer_database_candidate.py:1950-1974 | The flags of a completed installation mean that the candidate is the formal database and the source and its sidecars are preserved. |
| InstallProgress.CandidateMovedHeld | scripts/install_writer_database_candidate.py:2111-2120 | Taking the candidate back, or into quarantine, keeps the rollback invariant. |
| InstallProgress.BanishedHeld | scripts/install_writer_database_candidate.py:2085-2129 | Setting a racing process's file aside keeps the rollback invariant. |
| InstallProgress.SidecarRestoredHeld | scripts/install_writer_database_candidate.py:2131-2160 | Restoring a sidecar keeps the rollback invariant. |
| InstallProgress.SourceRestoredHeld | scripts/install_writer_database_candidate.py:2172-2185 | Restoring the source keeps the rollback invariant. |
| InstallProgress.RecoveredFiles | scripts/install_writer_database_candidate.py:2187-2225 | After a clean rollback the originals are back, unless the source was moved without its flag, and without interference every other path outside the backup directory is as before. |
| InstallProgress.RestoredExactly | scripts/install_writer_database_candidate.py:2187-2225 | By the digests: what a clean rollback has compared. |
| Installer.Installer.Rename | scripts/install_writer_database_candidate.py:1882 | os.replace: atomic, replaces its destination, and records whether it replaced anything. |
| Installer.Installer.Reach | scripts/install_writer_database_candidate.py:84-95 | A checkpoint: others act, a failure may be injected, and the invariant holds. |
| Installer.Installer.Prepare | scripts/install_writer_database_candidate.py:1828-1880 | Everything before the first rename; it changes no file. |
| Installer.Installer.PreserveDatabase | scripts/install_writer_database_candidate.py:1882-1884 | The source is moved aside; exactly what the rename does to the files, the flag and the replaced paths, also when the flag is not reached. |
| Installer.Installer.PreserveSidecar | scripts/install_writer_database_candidate.py:1886-1904 | A sidecar is moved aside if it is the one seen before, and refused otherwise; exactly which file is replaced, and whether the flag lags behind. |
| Installer.Installer.PreserveAll | scripts/install_writer_database_candidate.py:1882-1917 | Source and sidecars are all moved aside exactly when no step before the link fails; what was replaced by then, and what an interruption left without its flag. |
| Installer.Installer.MakeLink | scripts/install_writer_database_candidate.py:1918-1927 | The candidate gets the formal name only when that name is free; an interruption can come before the flag. |
| Installer.Installer.DropOldName | scripts/install_writer_database_candidate.py:1926-1934 | The candidate loses its old name; if that fails, the formal one again; if the process is interrupted just after it worked, both; if undoing fails too, the name it then has remains. |
| Installer.Installer.Verify | scripts/install_writer_database_candidate.py:1948-1993 | The checks between installation and receipt change nothing, pass only if every digest agreed and the installed database had no sidecar afterwards, and without interference exactly when no check fails. |
| Installer.Installer.IssueReceipt | scripts/writer_database_safety.py:421-476 | The receipt is created exclusively; a failed write removes it again, or leaves it known to the rollback. |
| Installer.Installer.TakeReceiptBack | scripts/install_writer_database_candidate.py:2055-2065 | The receipt goes if it is still the installer's own; otherwise an error is recorded. |
| Installer.Installer.Quarantine | scripts/install_writer_database_candidate.py:2085-2093 | A file is set aside only under a name that is free. |
| Installer.Installer.VacateInstalled | scripts/install_writer_database_candidate.py:2095-2120 | The installed candidate leaves the formal path, with its mode, or an error is reported. |
| Installer.Installer.VacateRacer | scripts/install_writer_database_candidate.py:2121-2127 | What stands at the formal path is preserved under the quarantine name, never overwritten: a racing process's file, or the candidate's second name. |
| Installer.Installer.ReturnSidecars | scripts/install_writer_database_candidate.py:2131-2160 | Each sidecar is brought back on its own; without an error both are back. |
| Installer.Installer.ReturnSource | scripts/install_writer_database_candidate.py:2172-2185 | The source comes back only to a free formal path. |
| Installer.Installer.RollBack | scripts/install_writer_database_candidate.py:2052-2254 | The rollback reports success exactly when its error list is empty, and then everything that the flags speak of is recovered; without interference it always succeeds, unless a sidecar was moved without its flag. |
| Installer.Installer.Transact | scripts/install_writer_database_candidate.py:1828-2254 | Forward and back: the outcome, decided without interference by the failing operations alone, the restored state, and the replaced paths. |
| Installer.Install | scripts/install_writer_database_candidate.py:1742-2254 | For every disk, every failing operation, every injected fault, every interruption between an operation and its flag, and every interference: the files replaced are exactly those that stood under a preserved name just before the rename that takes it; the owned files are never lost in any state passed through, except that the candidate is, exactly when an interruption comes just after its old name is gone; a clean rollback restored the digests and the originals, except that the source stays in the backup directory exactly when the interruption came before its flag; a sidecar moved without its flag is always reported; an installation is announced only if nothing failed and everything was verified; without interference it succeeds exactly when nothing fails, and otherwise ends with every path as before but for these. |
| InstallWitness.RacerReplaced | scripts/install_writer_database_candidate.py:1873-1903 | On every disk that passes the preflight, a file put under a preserved name before the cutover is replaced, and nothing else is. |
| InstallWitness.InstallUnderRacer | scripts/install_writer_database_candidate.py:1742-1974 | Such an installation, run from any disk that passes the preflight: it has overwritten that file. |
| InstallWitness.KeptOutOverwritesNothing | scripts/install_writer_database_candidate.py:1882-1903 | If nobody else writes into the backup directory, nothing is overwritten. |
| InstallWitness.CalmLinks | scripts/install_writer_database_candidate.py:1828-1927 | When nobody interferes and nothing fails before the link, the link is made. |
| InstallWitness.InterruptionReached | scripts/install_writer_database_candidate.py:1882-1934 | An installation that is only interrupted comes as far as the interruption. |
| InstallWitness.InstallInterrupted | scripts/install_writer_database_candidate.py:1742-2254 | From any disk that passes the preflight, an interruption between an operation and its flag: after the source's rename a clean failure with the formal path empty, after a sidecar's rename a reported one, after the link a clean one with everything as before, after the unlink a clean one with the candidate nowhere. |
| MediaPaths.BoundaryCanonical | scripts/cleanup_account_media.py:101-110 | An accepted path is canonical, cannot leave the two directories, and is accepted as itself again. |
| MediaPaths.BoundaryAcceptsRelative | scripts/cleanup_account_media.py:101-110 | A plain relative text that begins with one of the two directories and does not climb is accepted, as the path below that directory. |
| MediaPaths.BoundaryAcceptsAbsolute | scripts/cleanup_account_media.py:101-110 | The same for an absolute text. |
| MediaPaths.BoundaryExactly | scripts/cleanup_account_media.py:101-110 | By the text: exactly which texts are accepted, and as which path. |
| MediaPaths.ProtectedMeaning | scripts/cleanup_account_media.py:262-263 | Protected means exactly: equal to a reference or below one. |
| MediaPaths.ProtectedMonotone | scripts/cleanup_account_media.py:262-263 | More references protect more, and everything below a protected path is protected. |
| MediaReferences.LocalReferences | scripts/cleanup_account_media.py:167-193 | The loop finds exactly the references of a document, or refuses an ambiguous one. |
| MediaReferences.ReferencesExact | scripts/cleanup_account_media.py:156-193 | A path is a reference exactly when some relevant string means it; references stay inside the boundary. |
| MediaReferences.NamedExactly | scripts/cleanup_account_media.py:156-193 | By texts: a path is a reference exactly when a local text names it by how it begins or by its key, read from the root or from the manifest's directory. |
| MediaReferences.LocalTextNamed | scripts/cleanup_account_media.py:167-193 | A text that begins with one of the two directories protects what it points to, under every key. |
| MediaReferences.KeyTextNamed | scripts/cleanup_account_media.py:167-193 | Any relative text under a path key protects what it points to. |
| MediaReferences.BesideTextNamed | scripts/cleanup_account_media.py:167-193 | In a manifest, a relative text also protects what it means from the manifest's own directory. |
| MediaReferences.UnreadableTextRefused | scripts/cleanup_account_media.py:167-193 | A text that begins like a path, or climbs under a path key, and has no reading stops everything. |
| MediaReferences.RefusedForAText | scripts/cleanup_account_media.py:167-193 | Nothing else does. |
| MediaReferences.StringsMeaning | scripts/cleanup_account_media.py:156-164 | Every string is found, however deep, under the key of the object that holds it. |
| MediaReferences.RetainedReferences | scripts/cleanup_account_media.py:204-259 | The closure over the manifests is the least that explains the database, and holds every path that a text of a row or of a retained manifest names and every evidence file; a refusal means that nothing explains it. |
| MediaPlan.Expand | scripts/cleanup_account_media.py:284-306 | The loop looks at exactly the unprotected manifests reached from the old ones; candidates and blocked directories are those that they add or block, and each unreadable one is skipped once. |
| MediaPlan.Classify | scripts/cleanup_account_media.py:307-332 | Each candidate is classified exactly once, with the right reason; entries are unprotected single-link files with distinct inodes. |
| MediaPlan.MakePlan | scripts/cleanup_account_media.py:266-342 | There is a plan exactly when the deleted contents' paths are safe and something explains the database; no entry equals or lies below a path that a text of a retained row, evidence entry or retained manifest names, or lies under the directory of any unreadable manifest reached from the deleted contents; every candidate is an entry or a skip exactly once, with its right reason; the plan can be applied while the references stay. |
| MediaPlan.PlannedExactly | scripts/cleanup_account_media.py:307-332 | A candidate is planned only without a reason against it, and one without such a reason is planned, or a file with the same inode is. |
| MediaPlan.ClassifiedForCause | scripts/cleanup_account_media.py:307-332 | By what is found: an entry has nothing in its way, and every other candidate is skipped for the cause that its reason names. |
| MediaPlan.CandidatesByTexts | scripts/cleanup_account_media.py:266-306 | The candidates are exactly the evidence files and what the manifests that were looked at add. |
| MediaPlan.OldManifestsMeaning | scripts/cleanup_account_media.py:281-286 | The manifests to begin with are those among the evidence files, all of which have to be safe. |
| MediaPlan.AdditionsByTexts | scripts/cleanup_account_media.py:296-303 | A manifest adds exactly what its texts name in its own directory or below, but not itself. |
| CleanupJournal.LineFree | scripts/cleanup_account_media.py:31-32 | No event contains a line break. |
| CleanupJournal.DigestsWritable | scripts/cleanup_account_media.py:392-393 | The first line can be written for every pair of digests in hexadecimal digits. |
| CleanupJournal.ReadBack | scripts/cleanup_account_media.py:392-402 | A result is read back from its line exactly. |
| CleanupJournal.ReadOther | scripts/cleanup_account_media.py:392-402 | Nothing but a result is taken for a result. |
| CleanupJournal.LineTexts | scripts/cleanup_account_media.py:345-346 | The lines of the journal as they are written, piece by piece. |
| CleanupJournal.SummaryTexts | scripts/cleanup_account_media.py:427-433 | The last line, piece by piece. |
| CleanupJournal.CountTexts | scripts/cleanup_account_media.py:425-433 | How often each status occurs, under its own name, if it does. |
| CleanupJournal.CountsText | scripts/cleanup_account_media.py:425-433 | The counts in it, in the order of their names. |
| CleanupHistory.RecoverText | scripts/cleanup_account_media.py:384-391 | Cutting back to the last line break and splitting gives exactly the whole events. |
| CleanupHistory.CrashCut | scripts/cleanup_account_media.py:345-351 | A crash leaves durable events, some of the unsynced ones, and the beginning of at most one more. |
| CleanupHistory.ReadLines | scripts/cleanup_account_media.py:392-402 | The results read from the lines are the results of the events. |
| CleanupHistory.NeverOverclaimed | scripts/cleanup_account_media.py:425-431 | The reported bytes are at most those of the files that this tool removed. |
| CleanupHistory.ResultsStable | scripts/cleanup_account_media.py:402-403 | A durable result never changes. |
| CleanupHistory.CompleteTally | scripts/cleanup_account_media.py:425-428 | A report says complete exactly when every entry has a result. |
| MediaCleaner.ReadAll | scripts/cleanup_account_media.py:391-402 | The loop over the lines collects the results they hold. |
| MediaCleaner.Total | scripts/cleanup_account_media.py:425-431 | The loop adds up exactly what the results claim. |
| MediaCleaner.SoundBacked | scripts/cleanup_account_media.py:404-420 | Every result that says unlinked has its removal of exactly the planned file. |
| MediaCleaner.Cleaner.Crash | scripts/cleanup_account_media.py:345-351 | A crash keeps every durable event and the invariant. |
| MediaCleaner.Cleaner.Unlink | scripts/cleanup_account_media.py:409-420 | A file is removed exactly when it still has the planned identity, after a durable intent. |
| MediaCleaner.Cleaner.Open | scripts/cleanup_account_media.py:378-402 | The journal is accepted exactly when it is empty or has a complete first line; the torn tail is cut, and the results are read. |
| MediaCleaner.Cleaner.Announce | scripts/cleanup_account_media.py:404-407 | After it, the intent for the whole batch is durable. |
| MediaCleaner.Cleaner.RunBatch | scripts/cleanup_account_media.py:404-424 | A batch records a result for each of its indices, whatever happened to the files. |
| MediaCleaner.Cleaner.Session | scripts/cleanup_account_media.py:378-434 | One session: refused, crashed, or done with the report of all results; each entry without an earlier result meets its fate: the planned file goes unless an unlink can fail, a missing one is reported as missing, another one stays and is reported as changed; whatever happens, no other path is touched. |
| MediaCleaner.Campaign | scripts/cleanup_account_media.py:354-434 | Over any number of sessions with crashes anywhere and files changing in between: only planned, unprotected files are removed, each after a durable intent; a session that reports has removed every planned file that it found, if no unlink fails, and without a crash the first one reports; each index has one result; bytes are not overclaimed; a session is refused exactly when the journal that it finds has no whole first line, which only an earlier session that died in that line can leave; a finished plan stays finished. |
| MediaCleaner.TornHeaderRefused | scripts/cleanup_account_media.py:386-389 | Of all the beginnings of the first line that a crash can leave, exactly the proper ones make a journal that is refused. |
| MediaCleaner.NoHeaderMeans | scripts/cleanup_account_media.py:386-389 | A journal is refused exactly when it holds some text but no line break. |
| MediaCleaner.ApplicableExactly | scripts/cleanup_account_media.py:371-377 | By the references: a plan is applied exactly when its paths are distinct, none is or lies below a referenced path, and every file has one link. |
| GenerationImport.ProjectedIsImage | scripts/install_duplicate_index_release.py:213-226 | The projection makes the relations equal to the candidate's exactly when the candidate's facts are the original ones minus the proven deletions. |
| GenerationImport.ProjectedKeepsFacts | scripts/install_duplicate_index_release.py:95-104 | The projection only removes proven old text relations. |
| GenerationImport.RestartedIntact | scripts/install_duplicate_index_release.py:199-205 | Starting the building generation again keeps the invariant and touches no other generation. |
| GenerationImport.CopiedIntact | scripts/install_duplicate_index_release.py:206-211 | Each chunk keeps the invariant and touches no other generation. |
| GenerationImport.ActivatedIntact | scripts/install_duplicate_index_release.py:232-233 | After the switch the whole image is there. |
| IndexImporter.Importer.CopyTable | scripts/install_duplicate_index_release.py:206-212 | The chunks copy exactly the generation's rows; the comparison passes exactly when the foreign rows agree. |
| IndexImporter.Importer.Finish | scripts/install_duplicate_index_release.py:213-233 | The projection, the final guards and the switch succeed exactly under the stated condition. |
| IndexImporter.Importer.Recover | scripts/install_duplicate_index_release.py:186-195 | After a crash behind the switch, the receipt is recovered exactly when the rest of the database agrees with the candidate. |
| IndexImporter.UnchangedExactly | scripts/install_duplicate_index_release.py:88-104 | The guards pass exactly when business tables, and relations other than projections and proven deletions, are as in the original. |
| IndexImporter.ImportableExactly | scripts/install_duplicate_index_release.py:199-233 | By rows: an import goes through exactly when the other generations' rows agree, the candidate's facts are the original ones without the deleted ones, no copied relation hits one that stays, the postings are right, and no other generation is ready. |
| IndexImporter.SameOthersExactly | scripts/install_duplicate_index_release.py:186-195 | By rows: what must agree, besides the generation itself, for a receipt to be recovered. |
| IndexImporter.ImportedExactly | scripts/install_duplicate_index_release.py:199-233 | By rows: what is announced is there, row by row. |
| IndexImporter.Importer.Run | scripts/install_duplicate_index_release.py:176-234 | A database that others have changed is refused and left alone; otherwise a run that does not crash installs exactly when the database is importable, or recovers the receipt exactly when the other generations agree, and what is announced is there. |
| IndexImporter.Importer.Restore | scripts/install_duplicate_index_release.py:277-298 | Restoring gives exactly the original database, unless traffic has started or somebody changed what the import does not own; then nothing changes. |
| IndexImporter.ImportUntilDone | scripts/install_duplicate_index_release.py:160-237 | Over any number of crashing runs no run refuses what an earlier one left, ready means complete, and the first run without a crash completes. |
| IndexImporter.RefusedForForeignRows | scripts/install_duplicate_index_release.py:206-212 | Any rows of a retired generation that the candidate lacks: the import is refused. |
| IndexImporter.InstalledButNotRecovered | scripts/install_duplicate_index_release.py:186-195 | A retired generation that the candidate lacks: the import succeeds, and the next run refuses to recover its receipt. |
| SnapshotPaths.NormalizeIdempotent | scripts/build_server_snapshot.py:347-361 | Normalising a normalised path changes nothing. |
| SnapshotPaths.KeyInjective | scripts/build_server_snapshot.py:347-361 | Two paths have the same root and relative path exactly when they have the same canonical form. |
| SnapshotPaths.NormalizedSafe | scripts/build_server_snapshot.py:347-361 | A normalised path holds no NUL and no line break and stays below its root. |
| SnapshotPaths.NormalizedExactly | scripts/build_server_snapshot.py:347-361 | By the text: which paths are accepted, and under which key. |
| SnapshotPaths.IndexErrorExactly | scripts/build_server_snapshot.py:352-357 | Exactly the relative texts of slashes and single dots end in an unhandled error instead of a refusal. |
| SnapshotEncoding.SetTextInjective | scripts/build_server_snapshot.py:1200-1209 | The digested text determines the list of files. |
| SnapshotEncoding.LineMeans | scripts/build_server_snapshot.py:1200-1209 | The line of a file holds root, path, size and digest, with NULs between them. |
| SnapshotEncoding.NormalizedEncodable | scripts/build_server_snapshot.py:1200-1209 | Every normalised path with a hexadecimal digest can be encoded. |
| SnapshotEncoding.SetTextIdentifiesSet | scripts/build_server_snapshot.py:1159-1209 | The digested text is the same for two collections exactly when they hold the same files, whatever the order of collection. |
| SnapshotEncoding.WriteLists | scripts/build_server_snapshot.py:1212-1220 | The loop writes the relative paths of each root, each followed by a NUL. |
| SnapshotEncoding.ListsRoundTrip | scripts/build_server_snapshot.py:1212-1220 | The lists are read back exactly and name exactly the files of the set. |
| SnapshotClosure.LaterTransitive | scripts/build_server_snapshot.py:1096-1155 | Over the whole worklist nothing leaves the union, and required files keep their identity. |
| SnapshotClosure.TakenKept | scripts/build_server_snapshot.py:1130-1155 | A new file is required or reusable as its kind demands, exactly when it is admissible and on disk as declared. |
| SnapshotClosure.FollowedKept | scripts/build_server_snapshot.py:1105-1155 | Following a reference provides for it; nothing is lost, and what is promoted was registered or on disk and is named by an image's manifest. |
| SnapshotClosure.FollowedFine | scripts/build_server_snapshot.py:1105-1155 | A reference without fault is never refused. |
| SnapshotClosure.ClosingSettled | scripts/build_server_snapshot.py:1096-1155 | The worklist terminates with every required JSON file parsed and every reference provided for, and is not cut short without a reason. |
| SnapshotClosure.RowsAddedServed | scripts/build_server_snapshot.py:913-1095 | Every row is served, and what may be reused is what some row registered. |
| SnapshotClosure.SettledAgreed | scripts/build_server_snapshot.py:1111-1128 | References agree with what is transferred exactly when the disk bears out those to required files. |
| SnapshotClosure.CollectedSafe | scripts/build_server_snapshot.py:913-1165 | Required and reusable files are disjoint, everything mentioned is in their union or managed, required files are as on disk. A reference of a required JSON file to a report, to evidence, to a text or to an ordinary file that no row registers is required itself; nothing is required unless a row or such a reference demands it, and nothing is reusable but what is registered or is a large binary or a download that is no text; every row makes sense. All references agree with what is transferred exactly when the disk bears out those to required files, and exactly when there is no required file that the database registers, that an image's manifest names, and of which a required JSON file agrees with the registration and not with the disk. |
| SnapshotClosure.RiskComesTrue | scripts/build_server_snapshot.py:1097-1165 | By the rows alone: if an image's manifest and a JSON file that relies on a wrong registration are both required, no collection agrees. |
| SnapshotClosure.CollectedComplete | scripts/build_server_snapshot.py:913-1165 | If the registrations are true, nothing is refused without fault, and all references agree with what is transferred. |
| SnapshotClosure.TrapSprings | scripts/build_server_snapshot.py:1118-1137 | A report relies on a registration, an image's manifest then promotes the file: the collection succeeds, and its references agree exactly when the registration was right. |
| SnapshotClosure.TrapExists | scripts/build_server_snapshot.py:1118-1137 | There is such a project, with JSON files by their names: a collection that succeeds with a reference that disagrees with what is transferred. |
| SnapshotCollector.Collector.AddRequired | scripts/build_server_snapshot.py:568-630 | The method for a required file does to the collector's state what the specification says, or refuses when it does. |
| SnapshotCollector.Collector.AddRegistered | scripts/build_server_snapshot.py:701-731 | The same for a registration; repeating one changes nothing. |
| SnapshotCollector.Collector.Follow | scripts/build_server_snapshot.py:1105-1155 | The same for one reference. |
| SnapshotCollector.Collector.Close | scripts/build_server_snapshot.py:1096-1155 | The loop over the worklist does what the specification says. |
| SnapshotCollector.Collect | scripts/build_server_snapshot.py:913-1165 | The program collects exactly what the specification says, of which SnapshotClosure.CollectedSafe and CollectedComplete speak. |
| VerifiedBackup.Job.CleanOwned | scripts/migrate_v8_schema.py:1142-1157 | Only a file with the recorded inode is removed; another one in its place is left and reported. |
| VerifiedBackup.Job.CleanFile | scripts/migrate_v8_schema.py:1160-1180 | A private path is removed only if it is a regular file; otherwise an error is recorded. |
| VerifiedBackup.Job.LinkPromoted | scripts/migrate_v8_schema.py:1349-1366 | The final name is given only when it is free and the source is unchanged; a failure before its identity is known is not tracked. |
| VerifiedBackup.Job.CleanUp | scripts/migrate_v8_schema.py:1419-1433 | Cleaning up removes everything tracked and nothing replaced, and looks at the source once more; what remains of the job's files is what it lost track of. |
| VerifiedBackup.Job.Transform | scripts/migrate_v8_schema.py:1539-1662 | The copy is migrated, or may leave transient files beside it; the directory of raw copies is made by exactly the migration from 19 to 20. |
| VerifiedBackup.TakeLock | scripts/migrate_v8_schema.py:340-463 | The lock is taken exactly when it is new, or for a candidate the valid one that is there; a new one that is not finished remains exactly in two blind spots. |
| VerifiedBackup.DropLock | scripts/migrate_v8_schema.py:474-495 | After a failure a lock file that was made is removed if it is still the same and was not found changed; otherwise the failure says so. |
| VerifiedBackup.Produce | scripts/migrate_v8_schema.py:1266-1800 | For every fault at a checkpoint, failing operation and interference: done exactly when nothing fails, with exactly the promoted file, its receipt, the lock file and the raw copies of the migration from 19 to 20; undisturbed, a backup then holds the content of the source and a candidate the migrated content; otherwise exactly the stated paths remain: the raw copies once made, the lock found changed at the end, and the one file that a failure in a blind spot loses track of; a replaced file is never deleted and is reported; a lock file that was there before is never deleted. |
| Calibration.ChoosePositives | scripts/build_duplicate_calibration_v1.py:77-102 | Exactly the 75 pairs of the round robin, or a failure exactly when there are not enough different pairs; a group with pairs left contributed at most one less than any other. |
| Calibration.GreedyUnique | scripts/build_duplicate_calibration_v1.py:145-157 | The greedy choice of negatives is unique. |
| Calibration.ChooseNegatives | scripts/build_duplicate_calibration_v1.py:104-159 | The loop takes exactly the pairs that those taken before do not block, until there are 75. |
| Calibration.RejectedStaysBlocked | scripts/build_duplicate_calibration_v1.py:145-157 | A rejected better-ranked pair is blocked by a used pair or a saturated link. |
| Calibration.UsageBounded | scripts/build_duplicate_calibration_v1.py:145-157 | No link occurs in more than four negatives. |
| Calibration.UsageIsCount | scripts/build_duplicate_calibration_v1.py:104-111 | Usage counts a link once for every place where it stands. |
| Calibration.DistinctMeans | scripts/build_duplicate_calibration_v1.py:35-36 | Different pairs means that no pair stands twice, in either order of its links. |
| Calibration.TakenDistinct | scripts/build_duplicate_calibration_v1.py:145-157 | The negatives taken are different from each other and from all positives, apart from the manual ones. |
| Calibration.RoundRobinSifted | scripts/build_duplicate_calibration_v1.py:77-102 | The round robin never takes a pair twice, and takes only manual pairs and pairs of the groups. |
| Calibration.UniqueExactly | scripts/build_duplicate_calibration_v1.py:161-163 | For every input: the chosen pairs are all different exactly when no manual negative is among the positives of the round robin, and always if no manual negative is a manual positive or in a group. |
| Calibration.FirstIsChosen | scripts/build_duplicate_calibration_v1.py:77-102 | The first pair of the first group is always among the positives. |
| Calibration.RefusedAsNotUnique | scripts/build_duplicate_calibration_v1.py:161-163 | There is such an input: the program refuses it as not unique. |
| Calibration.BuildDataset | scripts/build_duplicate_calibration_v1.py:77-163 | The outcome as a function of the input: which of the three failures, exactly, or 75 and 75 different pairs with bounded usage, the positives evenly from the groups; manual negatives outside the groups never make it fail for uniqueness. |
| Preservation.PreservedTransitive | scripts/import_installed_account_summary.py:96-129 | What two imports preserve one after the other is preserved by both together. |
| Preservation.ChainPreserved | scripts/import_installed_account_summary.py:96-129 | Over any number of imports each state is preserved in every later one. |
| Preservation.NeverRetargeted | scripts/import_installed_account_summary.py:96-129 | An account or platform identity never stands for another one, a directory row keeps its platform, its bound account and its nonempty uid, and an intake row never changes. |
| Preservation.NeverReused | scripts/import_installed_account_summary.py:96-129 | A key of any of the four tables that was once given and is gone never comes back. |
| Preservation.NeverRewound | scripts/import_installed_account_summary.py:96-129 | What an import does not own never changes: schema, version, unrelated counts and sequences; the catalog keeps its id and depth, and neither its revision nor a key sequence ever falls. |
| Preservation.ImportPasses | scripts/import_installed_account_summary.py:96-129 | What an import is for passes: refreshed contact data, accounts under new keys, a later catalog revision. |
| Preservation.UnchangedPasses | scripts/import_installed_account_summary.py:96-129 | An import that changes nothing passes exactly when the version is known and no projection is open. |
| Preservation.ReportFile.WriteReport | scripts/import_installed_account_summary.py:132-142 | The report replaces the old one however the writes are split; a failure leaves its beginning over the old text. |
| Preservation.Connection.Import | scripts/import_installed_account_summary.py:166-172 | The import changes the state write by write, and stops at the first one that raises with the earlier ones done. |
| Preservation.Connection.Rollback | scripts/import_installed_account_summary.py:196-211 | A rollback puts the state back that was there when the transaction began, as far as the restoring is right; without a transaction it does nothing. |
| Preservation.ImportSession.Run | scripts/import_installed_account_summary.py:145-215 | Which of the four outcomes occurs, exactly; an applied import is preserved, was reported as validated, and is committed whole; however far an import comes, a failure leaves what the rollback restores; a dry run is reported as rolled back only if the state is the old one. |
| ReplayPlan.ChunksFlatten | scripts/materialize_full_history_discovery_cache.py:306-308 | The batches are the ids in their order, none empty or too long. |
| ReplayPlan.FoundAll | scripts/materialize_full_history_discovery_cache.py:318-349 | As many rows as ids means that each id has its own row. |
| ReplayPlan.ReadRows | scripts/materialize_full_history_discovery_cache.py:318-347 | Reading in batches finds the same rows as reading at once. |
| ReplayPlan.ClassifyRows | scripts/materialize_full_history_discovery_cache.py:351-482 | The loop's counters, subtotals and lists are those of the rows, or a check failed. |
| ReplayPlan.BuildReplayPlan | scripts/materialize_full_history_discovery_cache.py:311-484 | There is a plan exactly when every listed content has its row, each row agrees with the list and with its response in platform, account and time, and no response is left over. |
| ReplayPlan.PlanConserves | scripts/materialize_full_history_discovery_cache.py:369-482 | The classes of the plan are disjoint, and add up without remainder in total and, with the inconsistent rows, for each group and each platform; the groups and the platforms add up to the total. |
| ReplayPlan.ListedByRow | scripts/materialize_full_history_discovery_cache.py:369-482 | By the row and its response: in which list a content is. |
| ReplayPlan.Bijection | scripts/materialize_full_history_discovery_cache.py:483-484 | When the pairs agree as sets, contents and responses correspond one to one exactly when there are equally many. |

## Left out

- SQLite, HTTP, locks, fsync, `lsof`, plist and git calls appear only through their effect as atomic steps or as outcomes that the environment chooses; SQL text and hashing are not modelled.
- FastAPI routes, authentication, configuration, command-line parsing, the closing of the application and the timing of the worker's waits are not part of this model; the route's own limit on listings is the caller's `limit`.
- Titles, error texts and timestamps of jobs are carried along, but their wording is not modelled.
- QueueTheorems.AmbiguousPostIsNeverReplayed: an operator who edits the database, or a job whose row is deleted by hand, is outside the model.
- Installer.Install: interference happens at the named checkpoints, not between a check and the operation that follows it, and an operation that fails has no effect, except where an interruption before its flag is modelled; an interruption between the creation of the receipt and the moment its identity is known, and one inside the rollback, are not.
- Installer.Install: the flag out-parameter says whether the source had been moved; for interference that spares the owned files the restored state is stated without it.
- Installer.Installer.IssueReceipt: the receipt's content is a constant, and the checks of the migration contract's own files are one failing operation.
- VerifiedBackup.Produce: the contents of the databases are digests, the private names are new, the independent restore is one check, the directory of raw copies is one entry, and an error of the lock itself is reported as a failure without its text.
- MediaReferences.RetainedReferences: which names are manifests is a given test, and the order in which queues are worked off is arbitrary.
- MediaPlan.MakePlan: the entries' order by path, and the check that the scope's ids partition the source, are not modelled.
- MediaCleaner.Campaign: processes crash, machines do not, so a file once unlinked stays gone; the summary line is modelled without its constant note, and a journal of another plan is refused on the text of its first line.
- CleanupJournal.ReadBack: lines are read in the canonical form in which the tool writes them, not as arbitrary JSON.
- IndexImporter.Importer.Run: a live database in which the candidate's own generation is already retired, which the script refuses, is not modelled; the schema migration is one transaction, and the postings and integrity checks are one property of the candidate.
- SnapshotCollector.Collect: the database rows come as required or registered files; legacy comment directories, verified reusable rows, private references and external evidence are not modelled.
- The proofs of managed originals and the similarity scores of the calibration are inputs.
- Calibration.BuildDataset: ranked pairs join two different links, and the manual pairs are given, distinct, and within the limits.
- Preservation.ImportSession.Run: the writes of the import are given functions on the state, and the workbook and authority checks are one outcome.
- ReplayPlan.BuildReplayPlan: the text comparison of titles and bodies, which only blocks a plan, is not modelled.
- The `prepare_*_release`, `deploy_*`, `issue_*` and `package_*` scripts, `install_account_cleanup.py`, `migrate_account_intake.py` and `collect_account_platform_evidence.py` would only add conjunctions of receipt fields or smaller versions of what is here.
