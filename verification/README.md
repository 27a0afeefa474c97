# Verification of Chamber's CI server, image store and rootless bundles

A Dafny model of the parts of Chamber whose correctness depends on what several functions do together: the job protocol
of the CI server, the content-addressed image store, and four smaller pieces (log splitting, bounded logs, the rootless
ID map with the runtime-spec rewriting, and bundle removal). `dafny verify dfyconfig.toml` checks all of it.

## What is modelled

**The job table and the CI server.** `JobTable` gives every SQL statement of `cmd/ci/sqlite.go` as one function from
table to table and proves what any sequence of statements, from any number of connections, keeps. `SqliteStore` is the
store object; each of its methods is tied to those functions. `CiServer` is the server as a state machine: a program
counter for the dispatcher, each executor, the retry loop, the update goroutine and the main goroutine; the mutex and the
flags; the durable table; and, as history, the statuses GitHub accepted. A step is one move of one actor. Panics, job
timeouts, failed or lost statements, cancelled contexts, shutdown deadlines, crashes, restarts, failed candidates and
successful self-updates are steps. `CiInvariant` states the inductive invariant, `CiPreservation` shows that every step
of every actor keeps it, and `CiTheorems` draws the claims about whole runs. `CiEvents` relates states to the steps that
led to them (a workspace removed, a job executed, a claim lost), and `CiAdmission` says what the answer to a webhook
delivery stands for.

**The image store.** `ImageLayout` models descriptor graphs (OCI Image Format Specification, image-layout.md and
descriptor.md) over abstract hashing and decoding, the copier's traversal with its `seen` set, the recursive validator
that has none, and exactly when the two agree. `ImageMetadata` models platform defaults and record keys. `ImageCommits`
models what is on disk, the single durable writes of a commit and a removal, and what every sequence of such writes
keeps; a crash is a stop between two writes. `ImageStore` is the store object with its in-place loops. Its `trace` lists
each durable state it went through, and each method states which writes extend the trace. A store is `reliable` when it
meets no I/O error and no cancelled context; the contracts say what must succeed then.

**Smaller pieces.** `ProcessLog` (line splitting of process output), `BoundedLog` (size-limited job logs),
`UserNamespace` (subordinate ID ranges, subuid(5)), `RuntimeSpec` (the rootless rewriting of an OCI runtime spec,
config-linux.md, "User namespace mappings") and `BundleRemoval` (the retry loop around a recursive removal). `Text` holds
the string functions of Go that several of them use.

Where the source updates things in place the model does too: the job table, the image store, the log writers, the bounded
log and the runtime spec are objects, and filters compact arrays. Each such method is tied to a function of the old state
about which the properties are then proved.

| relation or function | code it models |
|---|---|
| `CiServer.PassNext`, `RetryNext` | `reportJobStatuses`, `reportJobUpdates`, `retryStatusUpdates` (cmd/ci/server.go:425-488) |
| `CiServer.ClaimNext`, `DispatcherNext` | `dispatchJobs` (cmd/ci/server.go:341-368) |
| `CiServer.ExecNext` | `runJob` (cmd/ci/server.go:370-423) |
| `CiServer.WebhookNext`, `OperatorNext`, `UpdateNext` | `postWebhook`, `postUpdate`, `prepareUpdate` (cmd/ci/server.go:184-211, 261-337) |
| `CiServer.MainNext`, `EnvironmentNext` | `serve`, `stop`, `newServer` and the loop of `runMain` (cmd/ci/server.go:42-145, cmd/ci/main.go:124-158) |
| `ImageLayout.Visit`, `VisitAll` | `copyDescriptorGraph` without I/O faults (pkg/image/internal/store/store.go:603-655) |
| `ImageLayout.Validated`, `LayoutValid` | `validateLayoutDescriptor` and `ValidateLayoutContext` (pkg/image/contract.go:237-408) |
| `ImageCommits.WriteOf` | the renames and removals behind `commitLayout` and `Remove` (pkg/image/internal/store/store.go:278-306, 370-423) |

## Assumptions

- A status request takes effect at GitHub before `reportStatus` returns, or never.
- Each SQL statement is atomic and durable, but may commit and still return an error. `Admit`'s and `Finish`'s second
  reads are separate statements.
- The state lock admits one server process, and a dead process runs nothing. `runMain` releases its lock before it exits
  after a shutdown deadline; that window is not modelled.
- Hashing is injective on what occurs: job IDs, record keys, and `CollisionFree` for blob digests. `Acyclic` says that no
  blob contains its own digest, however deeply.
- One image's descriptor graph does not name a digest under two kinds of media type or two sizes (`Uniform`). Where a
  result needs this, it says so; the results named "Exactly" say what happens without it.
- An index that the store writes is read back as written, and a rename either happens or does not.

## What turned out differently from the documentation

- The copier marks digests, not descriptors. A manifest listed first under an opaque media type is copied as an opaque
  blob, its own blobs stay behind, and the commit still succeeds (`CopierStopsShort`). `CopyExactly`,
  `CopyValidatesExactly` and `CommittedEntryExactly` give the exact condition, in terms of the temporary layout and the
  store before the commit.
- The validator checks a manifest's config and layers as plain blobs, the copier expands them by media type; so a layout
  can validate and still be refused by the copy (`CopierIsStricter`). `ValidatedVisitsExactly` says exactly when, for
  uniform layouts, and `VisitExactly` when no validation came first.
- A commit that stops between its index write and its record write leaves a recorded image that `PullIfMissing` refuses,
  exactly when the digest changed (`InterruptedCommitRefuses`). A pull with `PullAlways`, a build or a removal of the same
  key repairs it (`CompletedRestores`, `AgreementIsReused`).
- Two platforms can share a record when slashes shift the fields (`SlashesCollide`). A platform has its record to itself
  exactly when its key has one normalized cut only (`OwnsRecordExactly`), so without slashes always (`SlashFreeIsAlone`).
  A commit of one colliding platform breaks the agreement of the other (`CollidingCommitBreaks`); an image agrees
  throughout a history exactly when no operation of another image took its record (`AgreesThroughoutExactly`).
- The rewritten runtime spec has no cgroup mount exactly when no extra mount is one: bind mounts onto /sys/fs/cgroup come
  after the filter (`CgroupMountsExactly`). Rewriting settles exactly when each extra mount is one
  (`RewritingSettlesExactly`).
- `ProcessUser.AdditionalGIDs` is documented to replace the group IDs when non-empty; the code replaces them whenever the
  slice is not nil (`EmptyGidsReplace`). The model follows the code, and `DocumentedGidsExactly` says when the two agree.
- A log write that fails after leaving characters behind is not charged against the limit, so the file can exceed it
  (`PartialFailureOverruns`): by no more than what the failed writes of one opening left (`OverrunBound`), and only as
  `StaysWithinExactly` says.

## Model

| member | source | states |
|---|---|---|
| `JobTable.JobIdNamesOneCommit` | cmd/ci/store.go:58-61 | Two job IDs are equal if and only if repository key and commit are. |
| `JobTable.RepositoryNameSplits` | cmd/ci/config.go:50 | A text is a repository name exactly when splitting it at slashes gives two name parts. |
| `JobTable.Claimant` | cmd/ci/sqlite.go:112-116 | The row a claim takes is queued, every other queued row has a later created_at or the same one and a larger ID, and fewer than max_parallel run; no row is taken exactly when none qualifies. |
| `JobTable.ClaimIsDetermined` | cmd/ci/sqlite.go:112-116 | At most one row qualifies for a claim. |
| `JobTable.RowStepKeeps` | cmd/ci/sqlite.go:81-84 | Every rewriting of a row keeps the state/version/finished/cleaned relations, never goes back, and strictly lowers its rank when it has an effect. |
| `JobTable.StatementSteps` | cmd/ci/sqlite.go:167-193 | A statement rewrites each row in one of the listed ways and adds at most the admitted row. |
| `JobTable.StatementKeeps` | cmd/ci/sqlite.go:106-193 | Each statement keeps the row relations for the whole table and loses no row. |
| `JobTable.HistoryOk` | cmd/ci/sqlite.go:59-65 | In every reachable table a row is queued iff version 1, running implies 2, terminal implies 2 or 3, finished iff terminal, cleaned implies terminal. |
| `JobTable.HistoryLater` | cmd/ci/store.go:33-56 | Between any two moments of any history rows only move forward, and a version names one outcome. |
| `JobTable.AtMostSixWrites` | cmd/ci/sqlite.go:106-193 | After admission a job receives at most six effective writes, whatever the schedule. |
| `JobTable.NeverQueuedAgain` | cmd/ci/sqlite.go:112-116 | A job that left the queue never returns to it. |
| `JobTable.ClaimedOnce` | cmd/ci/sqlite.go:106-124 | A job is claimed at most once over all histories. |
| `JobTable.ClaimedInOrder` | cmd/ci/sqlite.go:114 | A job is claimed only when every other queued job has a later created_at, or the same one and a larger ID. |
| `JobTable.RunningCounts` | cmd/ci/sqlite.go:112-116 | No statement raises the running count above max_parallel. |
| `JobTable.QueuedCounts` | cmd/ci/sqlite.go:81-84 | No statement raises the queued count above max_queued. |
| `JobTable.LimitsHold` | cmd/ci/store.go:33-42 | With fixed limits neither count ever exceeds its limit, for any number of connections. |
| `JobTable.RowsAreNamed` | cmd/ci/sqlite.go:76 | Every row is stored under the ID of its repository and commit. |
| `JobTable.OneRowPerCommit` | cmd/ci/store.go:58-61 | Two rows are one exactly when they name the same commit of the same repository. |
| `SqliteStore.Store.Get` | cmd/ci/sqlite.go:102-104 | Returns the stored row or reports that there is none. |
| `SqliteStore.Store.Admit` | cmd/ci/sqlite.go:75-100 | Invalid requests change nothing; a known ID returns its row even when the queue is full; below the limit a new one is inserted with its own columns, unreported, uncleaned, version 1; else the queue is full and nothing changes. |
| `SqliteStore.Store.Claim` | cmd/ci/sqlite.go:106-124 | Claims the queued row with the smallest (created_at, id), written out over the columns; that row starts running, unreported, one version on, and nothing else changes; none is returned exactly when the queue is empty or the slots are taken. |
| `SqliteStore.Store.Finish` | cmd/ci/sqlite.go:126-148 | Succeeds exactly when the row then holds this outcome; a running row gets state, message, time, one version more and no acknowledgement; a retry has no second effect; a failure changes nothing and names its cause. |
| `SqliteStore.Store.Unsettled` | cmd/ci/sqlite.go:150-165 | Lists exactly the rows not both reported and cleaned, each once, by created_at and then by ID. |
| `SqliteStore.Store.Acknowledge` | cmd/ci/sqlite.go:167-170 | Marks the row reported only at the acknowledged version. |
| `SqliteStore.Store.MarkCleaned` | cmd/ci/sqlite.go:172-175 | Marks only terminal rows cleaned. |
| `SqliteStore.Store.RecoverInterrupted` | cmd/ci/sqlite.go:177-182 | Each running row ends as an error with the interruption message, unreported, one version on, its other columns kept; every other row stays; afterwards none runs. |
| `SqliteStore.Store.RunningCount` | cmd/ci/sqlite.go:184-188 | Counts the running rows: zero exactly when the recovery of a successor, at any time, would leave the table as it is. |
| `SqliteStore.Store.CancelQueued` | cmd/ci/sqlite.go:190-193 | Each queued row ends as an error with the message that the server stopped first, its other columns kept; every other row stays; afterwards none is queued. |
| `SqliteStore.UnsettledSnapshots` | cmd/ci/sqlite.go:150-165 | A listing names every open row exactly once. |
| `CiInvariant.PassKeeps` | cmd/ci/server.go:440-464 | A step of a reporting pass keeps the status history in order and acknowledges only what GitHub accepted last. |
| `CiInvariant.AcceptedKeepsStatuses` | cmd/ci/server.go:452-459 | Sending the head of a pass keeps every job's accepted versions in order and all other pending snapshots sendable. |
| `CiInvariant.AcknowledgeDelivers` | cmd/ci/server.go:459-461 | After an acknowledgement a reported row was last reported as it stands. |
| `CiInvariant.FreshListing` | cmd/ci/server.go:441-447 | A fresh listing is never behind what GitHub has. |
| `CiPreservation.DispatcherWork` | cmd/ci/server.go:341-368 | Claiming and spawning keep executions inside the running rows and below max_parallel. |
| `CiPreservation.ExecWork` | cmd/ci/server.go:370-423 | Executing, saving, re-reading and retrying keep each executor's outcome consistent with its row. |
| `CiPreservation.UpdateControl` | cmd/ci/server.go:272-337 | The update goroutine keeps the relations between flags and program counters. |
| `CiPreservation.MainControl` | cmd/ci/server.go:77-145 | Serving and stopping keep those relations. |
| `CiPreservation.EnvironmentKeeps` | cmd/ci/main.go:124-158 | Crashes, restarts and shutdown signals keep the whole invariant. |
| `CiPreservation.StepKeeps` | cmd/ci/server.go:77-488 | Every step of every actor keeps the invariant. |
| `CiPreservation.RunKeeps` | cmd/ci/server.go:77-488 | The invariant holds at every point of every run. |
| `CiTheorems.StepWrites` | cmd/ci/server.go:77-488 | Each step issues at most one statement of the store, with the configuration of the server that is up. |
| `CiTheorems.RunIsHistory` | cmd/ci/main.go:124-158 | The tables of a run, over all restarts and whatever the servers' limits, form a history of statements. |
| `CiTheorems.RunIsLimited` | cmd/ci/main.go:124-158 | Where all servers of a run share one configuration they form a history within its limits. |
| `CiTheorems.LimitsHoldInRuns` | cmd/ci/store.go:33-42 | Then queued and running rows never exceed max_queued and max_parallel, and a row stands for one commit. |
| `CiTheorems.SlotsHoldInRuns` | cmd/ci/server.go:346-352 | In every run, whatever earlier servers allowed, the running rows never exceed max_parallel of the server that is up. |
| `CiTheorems.JobsEndure` | cmd/ci/server.go:188-192 | An accepted job is never lost, and its row only moves forward. |
| `CiTheorems.StartsOnceInOrder` | cmd/ci/server.go:346-361 | Over all restarts a job starts at most once, and any other job queued then has a later created_at, or the same one and a larger ID. |
| `CiTheorems.OneReporter` | cmd/ci/server.go:316-329 | At most one of the retry loop, the update flush and the final pass is sending statuses. |
| `CiTheorems.StatusesInOrder` | cmd/ci/server.go:440-464 | The versions GitHub accepts never decrease, nothing but the outcome itself follows an outcome, and a reported row was last accepted as it stands. |
| `CiTheorems.CleanupNeverMeetsExecution` | cmd/ci/server.go:466-488 | Executing jobs are running rows, at most max_parallel; a workspace is removed only of an ended job; the two never meet. |
| `CiTheorems.FinishNeverConflicts` | cmd/ci/sqlite.go:139-147 | In every run the second read of Finish finds the outcome just saved. |
| `CiTheorems.SpawnIsNew` | cmd/ci/server.go:357-360 | A claimed job has no executor yet. |
| `CiTheorems.HandoverIsQuiet` | cmd/ci/server.go:316-329 | Where serve hands over a candidate no row is running, and the successor's recovery changes nothing. |
| `CiTheorems.QueueSurvivesHandover` | cmd/ci/server.go:134-136 | Over any span of a handover, from the start of draining to the successor's first step, a queued row changes at most its acknowledgement. |
| `CiTheorems.UpdateSparesExecutions` | cmd/ci/server.go:311-322 | In a process that no shutdown without update has reached, after any restarts, the context of executions ends only when nothing executes, so an update never cancels a job. |
| `CiTheorems.EndedByItsExecutor` | cmd/ci/server.go:383-396 | Over all restarts and updates a job ends only by the outcome its executor saved, by the recovery after a crash, or by a shutdown without update; in the last two cases as an error whose message tells a running job from a queued one; before the first of those only by its executor. |
| `CiTheorems.UpdatesExclude` | cmd/ci/server.go:261-270 | At most one update is prepared at a time and updateReady is closed at most once. |
| `CiTheorems.FailedUpdateResumes` | cmd/ci/server.go:274-286 | An update that fails while the server serves leaves admission open, draining cleared and dispatcher and reporter uncancelled. |
| `CiTheorems.AdmissionStaysOpen` | cmd/ci/server.go:118-123 | An update closes admission at no point: as long as no shutdown without update has begun, deliveries are still admitted. |
| `CiTheorems.AdmissionStaysClosed` | cmd/ci/server.go:118-124 | Once a shutdown held the mutex this process never admits again, even if an update fails meanwhile. |
| `CiTheorems.StopSettlesEverything` | cmd/ci/server.go:137-144 | When stop returns without error every row has ended. |
| `CiEvents.CleanedWasRemoved` | cmd/ci/server.go:474-485 | In every run a row is marked cleaned, or about to be, only after the removal of its workspace returned without error, in this process or an earlier one. |
| `CiEvents.RemovedForGood` | cmd/ci/server.go:475-479 | A removal finds the job ended, and the job executes at no later point of the run. |
| `CiEvents.OutcomeWasExecuted` | cmd/ci/server.go:383-422 | A job is recorded as passed or failed only after an execution of it ended with that outcome. |
| `CiEvents.ExecutedAtMostOnce` | cmd/ci/server.go:352-359 | Over all crashes, restarts and updates a job is executed at most once. |
| `CiEvents.RunningIsOwned` | cmd/ci/server.go:390-408 | While a server processes jobs, each running row has an executor or is about to get one, unless the answer to its claim was lost. |
| `CiEvents.StopReportsEverything` | cmd/ci/server.go:137-144 | When stop returns without error GitHub has last accepted each job's final status, unless its request in the final pass failed. |
| `CiAdmission.AnsweredJobsEndure` | cmd/ci/server.go:191-211 | The row a successful delivery was answered from is never lost and only moves forward; a created one starts with the delivered columns. |
| `CiAdmission.AnsweredCommit` | cmd/ci/server.go:182-211 | Under one configuration that row is of exactly the delivered commit, created or found. |
| `ImageLayout.Visit` | pkg/image/internal/store/store.go:603-655 | The traversal ends on every graph, only adds to `seen`, and marks the descriptor it was given. |
| `ImageLayout.VisitFollows` | pkg/image/internal/store/store.go:610-653 | By the four media types: the traversal goes on to the entries of an index or manifest list, to the config and then all layers of an OCI or Docker manifest, and nowhere else; it stops at a blob that is missing, of another size, of another digest or not decodable. |
| `ImageLayout.VisitFinds` | pkg/image/internal/store/store.go:610-614 | Everything newly marked is reachable and was present, valid and decodable. |
| `ImageLayout.VisitCloses` | pkg/image/internal/store/store.go:620-653 | In a uniform graph the children of everything newly marked are marked. |
| `ImageLayout.VisitIsReachability` | pkg/image/internal/store/store.go:598-655 | In a uniform graph the marked digests are exactly the reachable ones; what is listed where is said by `VisitFollows`. |
| `ImageLayout.VisitProvesClosed` | pkg/image/internal/store/store.go:598-655 | A successful traversal of a uniform graph has checked every reachable descriptor. |
| `ImageLayout.VisitExactly` | pkg/image/internal/store/store.go:598-655 | In a uniform graph the traversal succeeds exactly when everything reachable, as `VisitFollows` says, is present, valid and decodable. |
| `ImageLayout.ValidatedVisitsExactly` | pkg/image/contract.go:387-408 | On a validated uniform layout it succeeds exactly when what the manifests list under expanding media types is complete itself. |
| `ImageLayout.ClosedVisits` | pkg/image/internal/store/store.go:598-655 | A complete graph is always traversed to the end. |
| `ImageLayout.ClosedExactly` | pkg/image/internal/store/store.go:673-703 | A graph complete in one blob store is complete in another exactly when every reachable digest is held there. |
| `ImageLayout.ClosedStays` | pkg/image/internal/store/store.go:705-710 | A complete graph stays complete while valid blobs are kept. |
| `ImageLayout.ClosedRelabelled` | pkg/image/internal/store/store.go:516-525 | Changing annotations and platform of an entry does not change its graph. |
| `ImageLayout.ValidatedExactly` | pkg/image/contract.go:303-408 | What the validator accepts in one store it accepts in another exactly when every digest it reads is held there. |
| `ImageLayout.NeedsAreReached` | pkg/image/contract.go:364-408 | The validator reads only reachable digests. |
| `ImageLayout.ValidatedWants` | pkg/image/contract.go:303-408 | By the same media types: a descriptor validates exactly when its blob is in place, an index lists something and all its entries validate, and a manifest's config and layers are in place. |
| `ImageLayout.NeedsAreVisited` | pkg/image/internal/store/store.go:598-655 | In a uniform graph the copier visits everything the validator reads. |
| `ImageLayout.ValidatedIsClosed` | pkg/image/contract.go:387-408 | On a graph whose manifests list only leaves, validation implies completeness, so the copy goes through. |
| `ImageLayout.CopyExactly` | pkg/image/internal/store/store.go:598-655 | After any successful copy the graph is complete exactly when it is complete over source and destination together and each digest it reaches was visited or already there. |
| `ImageLayout.CopyValidatesExactly` | pkg/image/contract.go:237-301 | After the copy the descriptor validates exactly when each digest the validator reads was visited or already there. |
| `ImageLayout.CopyArrives` | pkg/image/internal/store/store.go:598-655 | After any successful copy the destination holds the image's blob with its size, and blobs for its config and every layer, or for every entry of an index. |
| `ImageLayout.CopyArrivesEverywhere` | pkg/image/internal/store/store.go:598-655 | With a uniform source it holds the same for every descriptor the image reaches. |
| `ImageLayout.CopierStopsShort` | pkg/image/internal/store/store.go:610-613 | A concrete layout that validates and copies without error but arrives incomplete, because `seen` ignores the media type. |
| `ImageLayout.CopierIsStricter` | pkg/image/internal/store/store.go:634-653 | A concrete layout that validates but that the copy refuses. |
| `ImageLayout.TotalSizeAdds` | pkg/image/internal/store/store.go:618-654 | Sizes of distinct digests add up, each counted once. |
| `ImageMetadata.NormalizeSettles` | pkg/image/contract.go:200-215 | Platform defaults are idempotent. |
| `ImageMetadata.NormalizedFields` | pkg/image/contract.go:200-215 | Each field is the given one without surrounding white space; a blank operating system becomes linux, a blank architecture the host's. |
| `ImageMetadata.NormalizedExactly` | pkg/image/contract.go:200-215 | A platform has its defaults applied exactly when all fields are trimmed and the first two are not empty. |
| `ImageMetadata.KeyNamesOneImage` | pkg/image/internal/metadata/metadata.go:297-305 | Between two platforms without a slash in the first two fields, record keys are equal exactly when reference and platform are. |
| `ImageMetadata.OwnsRecordExactly` | pkg/image/internal/metadata/metadata.go:297-305 | A normalized platform shares its record with no other one, slashed or not, exactly when its key can be cut at two slashes into a normalized platform in one way only. |
| `ImageMetadata.AloneOwns` | pkg/image/internal/metadata/metadata.go:297-305 | The record of such a platform is reached by no other reference or normalized platform. |
| `ImageMetadata.SlashFreeIsAlone` | pkg/image/internal/metadata/metadata.go:302-305 | No slash in any field is enough for that, whatever the other platform contains. |
| `ImageMetadata.SlashesCollide` | pkg/image/internal/metadata/metadata.go:302-305 | A concrete pair of normalized platforms that share a record, one of them without a slash in its first two fields. |
| `ImageCommits.WithoutKeeps` | pkg/image/internal/store/store.go:527-536 | Exactly the entries leave the index that have this reference name and name this platform or none. |
| `ImageCommits.WithoutAppends` | pkg/image/internal/store/store.go:527-536 | The others keep their order and number. |
| `ImageCommits.CommittedEntryExactly` | pkg/image/internal/store/store.go:378-391 | The entry a commit of any validated layout writes is complete and valid exactly when its graph is complete over both stores and each digest reached or validated was marked or already held. |
| `ImageCommits.CompletedIsSoundExactly` | pkg/image/internal/store/store.go:370-423 | Exactly then a completed commit leaves a sound store sound. |
| `ImageCommits.CommittedArrives` | pkg/image/internal/store/store.go:378-391 | Whatever the source, a completed commit holds the committed blob, its config and every layer, or every entry of an index. |
| `ImageCommits.CommittedArrivesEverywhere` | pkg/image/internal/store/store.go:378-391 | With a uniform source it holds the same for everything the image reaches. |
| `ImageCommits.CommittedEntry` | pkg/image/internal/store/store.go:386-391 | The new entry is the selected descriptor with the requested reference name and platform, behind the entries that stay. |
| `ImageCommits.IndexWriteIsSound` | pkg/image/internal/store/store.go:382-391 | With a uniform source the new entry has its whole closure and validates. |
| `ImageCommits.WriteKeepsSoundExactly` | pkg/image/internal/store/store.go:278-306 | Whatever its source, a single durable write keeps the store sound exactly when the entry it may add is sound. |
| `ImageCommits.WriteKeepsSound` | pkg/image/internal/store/store.go:278-306 | With a uniform source every single durable write keeps every index entry complete and valid. |
| `ImageCommits.EveryStateIsSound` | pkg/image/internal/store/store.go:370-423 | With uniform sources so does every state that any sequence of writes of any operations can stop in. |
| `ImageCommits.EveryStateIsSoundExactly` | pkg/image/internal/store/store.go:370-423 | Without that hypothesis all those states are sound exactly when each index write added a sound entry. |
| `ImageCommits.SoundEntriesStay` | pkg/image/internal/store/store.go:705-710 | An entry that was ever sound stays sound through every later write, whatever the other sources were. |
| `ImageCommits.SharedLayoutValidates` | pkg/image/contract.go:237-301 | In each such state the shared layout passes full validation whenever it lists anything. |
| `ImageCommits.CompletedRestores` | pkg/image/internal/store/store.go:382-414 | From any state a completed commit or removal makes record and index agree for its key. |
| `ImageCommits.CompletedSparesExactly` | pkg/image/internal/store/store.go:294-305 | Another image's agreement survives a completed operation exactly when that used another record or removed one that was not there. |
| `ImageCommits.CompletedSparesOthers` | pkg/image/internal/store/store.go:527-536 | So an image that has its record to itself is spared by every completed operation of another one, whatever normalized platform that was for. |
| `ImageCommits.CollidingCommitBreaks` | pkg/image/internal/metadata/metadata.go:302-305 | A concrete pair of platforms for which a completed commit of one leaves record and entries of the other disagreeing. |
| `ImageCommits.AgreesThroughoutExactly` | pkg/image/internal/store/store.go:294-305 | Over operations that completed or stopped before their first index or record write, an image agrees throughout exactly when no operation of another image took its record. |
| `ImageCommits.OwnHistoriesAgree` | pkg/image/internal/store/store.go:382-414 | So it agrees whenever every operation of the history that uses its record is for this image. |
| `ImageCommits.CleanHistoriesAgree` | pkg/image/internal/store/store.go:294-305 | In particular all images that have their record to themselves agree after such operations. |
| `ImageCommits.EveryStateIsTidy` | pkg/image/internal/store/store.go:382-414 | In every state any writes can stop in, each index entry names a platform and each record sits under its own key. |
| `ImageCommits.CleanHistoriesStayTidy` | pkg/image/internal/store/store.go:382-414 | The same after completed or early stopped operations. |
| `ImageCommits.AgreementIsOneToOne` | pkg/image/internal/store/store.go:294-305 | On such a disk agreement is a one-to-one correspondence between all entries and all records of those images, with equal digests. |
| `ImageCommits.CommittedIsSelected` | pkg/image/internal/store/store.go:487-525 | Selection finds exactly what the last commit of that key wrote. |
| `ImageCommits.SelectedIsChosen` | pkg/image/internal/store/store.go:492-513 | By positions: the only entry with platform and reference name; an error when several have them; when none has, the only entry of the platform; else the single entry of a one-entry index, else an error. |
| `ImageCommits.ReusedIsInPlace` | pkg/image/internal/store/store.go:657-671 | Whatever a crash left behind, an image is reused only if an index entry backs it and that entry's blob and all it lists are in place. |
| `ImageCommits.RefusedExactly` | pkg/image/internal/store/store.go:657-671 | In a sound store a recorded image is refused exactly when no index entry backs it. |
| `ImageCommits.AgreementIsReused` | pkg/image/internal/store/store.go:350-360 | Where record and index agree the recorded image is reused, never refused. |
| `ImageCommits.InterruptedCommitRefuses` | pkg/image/internal/store/store.go:389-414 | A commit stopped between index and record makes PullIfMissing refuse exactly when the digest changed. |
| `ImageCommits.InterruptedRemovalIsMissing` | pkg/image/internal/store/store.go:294-305 | A removal that stops after either of its writes leaves the image missing, never refused, and touches the index only once the record is gone. |
| `ImageStore.TraceIsSound` | pkg/image/internal/store/store.go:370-423 | Each durable state a method went through is sound. |
| `ImageStore.NothingToCopy` | pkg/image/internal/store/store.go:662-667 | Validating a stored image by copying it onto itself writes nothing. |
| `ImageStore.SelectDescriptor` | pkg/image/internal/store/store.go:487-514 | The loop answers what `SelectedIsChosen` says by positions of the index. |
| `ImageStore.RemoveDescriptors` | pkg/image/internal/store/store.go:527-536 | Compaction in place keeps exactly the entries that `WithoutKeeps` and `WithoutAppends` describe. |
| `ImageStore.Store.CopyBlobIfMissing` | pkg/image/internal/store/store.go:705-763 | Writes at most one blob, only where no valid one is, and keeps every valid one; afterwards the blob is there with its size and digest. |
| `ImageStore.Store.CopyGraph` | pkg/image/internal/store/store.go:603-655 | Success means the result of the traversal that `VisitFollows` spells out: `seen`, the blobs and the size of what was newly marked; an invalid-layout error means the traversal fails, and without I/O errors it is the only failure; any failure leaves only valid additions. |
| `ImageStore.Store.CopyReachable` | pkg/image/internal/store/store.go:598-601 | The same from a fresh `seen`, so the size is the sum over all marked digests. |
| `ImageStore.CopiedArrives` | pkg/image/internal/store/store.go:598-655 | Its success leaves the image in the destination with its config and every layer, or every entry of an index. |
| `ImageStore.Store.CopyAll` | pkg/image/internal/store/store.go:626-653 | The same for a list of children. |
| `ImageStore.Store.GetRecord` | pkg/image/internal/metadata/metadata.go:134-154 | The stored record, or that there is none. |
| `ImageStore.Store.CreatedAt` | pkg/image/internal/store/store.go:393-401 | A key committed before keeps its creation time; only an unreadable record stops the commit here. |
| `ImageStore.Store.PutRecord` | pkg/image/internal/metadata/metadata.go:77-132 | One atomic replacement, or nothing. |
| `ImageStore.Store.DeleteRecord` | pkg/image/internal/metadata/metadata.go:201-219 | One atomic removal, or nothing. |
| `ImageStore.Store.WriteIndex` | pkg/image/internal/store/store.go:556-596 | One atomic replacement of the index, or nothing; an error may follow it. |
| `ImageStore.Store.Commit` | pkg/image/internal/store/store.go:370-423 | Refuses invalid layouts without a write; otherwise writes only blobs, then the index, then the record; success is the whole effect, with the requested reference, platform and source, the selected digest, now as update time and the first creation time kept; without I/O errors it comes exactly when the traversal succeeds. |
| `ImageStore.Store.Remove` | pkg/image/internal/store/store.go:278-306 | Removes the record before the index entry; success is the whole effect. |
| `ImageStore.Store.ExistingValidImage` | pkg/image/internal/store/store.go:350-360 | Changes nothing; reuse, absence and refusal mean what the value-level lookup says. |
| `ImageStore.Store.CommitPulled` | pkg/image/internal/store/store.go:187-205 | The second locked section of Pull reuses an image that appeared meanwhile, refuses a broken one, or commits the fetched one; `PullAlways` never reuses. |
| `Text.SplitIsSeparation` | pkg/image/internal/buildkit/buildkit.go:582-591 | Splitting and joining are inverse and no piece holds the separator. |
| `Text.SplitContinues` | pkg/image/internal/buildkit/buildkit.go:582-591 | A text cut in two splits like the whole, the cut piece completed by what follows. |
| `ProcessLog.ChunksMerge` | pkg/image/internal/buildkit/buildkit.go:577-593 | Two writes have the effect of one. |
| `ProcessLog.EveryCutGivesTheLines` | pkg/image/internal/buildkit/buildkit.go:577-622 | For every cutting of a stream followed by a flush the log is its non-blank lines, trailing carriage returns trimmed, in order. |
| `ProcessLog.SuppressedIsSilent` | pkg/image/internal/buildkit/buildkit.go:601-622 | After suppression nothing is logged any more. |
| `ProcessLog.SuppressionCutsAtTheLine` | pkg/image/internal/buildkit/buildkit.go:601-606 | Suppression keeps the complete lines before it and drops the unfinished one. |
| `ProcessLog.ShownExactly` | pkg/image/internal/buildkit/buildkit.go:608-616 | A line is dropped exactly when it is white space only; otherwise it is logged without the carriage returns at its end, and nothing else is cut. |
| `ProcessLog.LogWriter.Write` | pkg/image/internal/buildkit/buildkit.go:577-593 | The byte-scanning loop has the effect of one chunk and reports its length. |
| `ProcessLog.LogWriter.EmitLocked` | pkg/image/internal/buildkit/buildkit.go:608-622 | Emits the pending line unless suppressed or blank, and resets it. |
| `ProcessLog.OutputBuffer.Write` | pkg/image/internal/buildkit/buildkit.go:551-557 | Captures the text unchanged and logs it. |
| `ProcessLog.Interleaved` | pkg/image/internal/buildkit/buildkit.go:539-561 | For any interleaving of two streams the capture is the interleaved text and each log holds its own stream's lines. |
| `BoundedLog.FirstAppends` | cmd/ci/files.go:122-134 | Clipping piece by piece is clipping the whole. |
| `BoundedLog.Log.Write` | cmd/ci/files.go:122-134 | Appends what still fits, reports the full length, and on failure reports nothing and keeps its budget. |
| `BoundedLog.CleanWritesFillUp` | cmd/ci/files.go:109-140 | With all-or-nothing writes the file is the first `limit` characters of what was written. |
| `BoundedLog.Replay` | cmd/ci/files.go:109-140 | Over any openings, writes, partly failing writes and closings the objects do what the states say, and every success reports its full length. |
| `BoundedLog.AccountsHold` | cmd/ci/files.go:119-132 | What is left of the budget and the size of the file follow from the size at the last opening, what was offered since and what failed writes left. |
| `BoundedLog.OverrunBound` | cmd/ci/files.go:109-140 | For every sequence of events the file exceeds its limit by no more than the failed writes of one opening left behind. |
| `BoundedLog.StaysWithinExactly` | cmd/ci/files.go:109-140 | It stays within the limit exactly when, after every event, nothing was left since the last opening or everything offered since then still fits. |
| `BoundedLog.PartialFailureOverruns` | cmd/ci/files.go:129-132 | A concrete run of two writes that meets the bound. |
| `UserNamespace.ParsesBack` | pkg/bundle/internal/directory/userns.go:82-89 | Decimal formatting and 32-bit parsing are inverse; larger numbers are refused. |
| `UserNamespace.SubordinateRange` | pkg/bundle/internal/directory/userns.go:75-97 | The loop computes the answer of the first deciding line; which lines those are is said over the text by the rows below. |
| `UserNamespace.FirstLineDecides` | pkg/bundle/internal/directory/userns.go:75-97 | The first line that is not passed over or is too long decides; none means no range. |
| `UserNamespace.LinesHead` | pkg/bundle/internal/directory/userns.go:76-77 | The lines of a text are the piece before its first newline and the lines of the rest. |
| `UserNamespace.OthersArePassedOver` | pkg/bundle/internal/directory/userns.go:82-85 | A line whose owner is neither the account's name nor its number is passed over, whatever follows the owner's colon. |
| `UserNamespace.OthersGrantNothing` | pkg/bundle/internal/directory/userns.go:82-85 | In particular a well-formed entry of another account changes nothing. |
| `UserNamespace.NumberDecides` | pkg/bundle/internal/directory/userns.go:83 | An entry under the account's number decides, whatever the account's name is. |
| `UserNamespace.CommentsArePassedOver` | pkg/bundle/internal/directory/userns.go:78-81 | Blank lines and lines whose first black character is # are passed over. |
| `UserNamespace.FaultyLines` | pkg/bundle/internal/directory/userns.go:86-88 | A line of the account that has not three fields is an invalid entry, and one over the scanner's limit ends the reading. |
| `UserNamespace.AcceptedRange` | pkg/bundle/internal/directory/userns.go:90-94 | For every text an accepted range starts at container ID 1, does not overflow and spares the caller's own ID. |
| `UserNamespace.WrittenEntry` | pkg/bundle/internal/directory/userns.go:82-95 | An entry under the account's name or number decides, whatever follows: it is accepted exactly when start and count are positive, their sum has 32 bits and the range spares the caller's own ID. |
| `UserNamespace.CurrentUserNamespace` | pkg/bundle/internal/directory/userns.go:39-73 | Container root is the caller, followed by the granted ranges; the first faulty file decides the error, and a range in one file only is refused. |
| `UserNamespace.CombinedIsAccepted` | pkg/bundle/internal/directory/userns.go:39-97 | Whatever the files hold, an accepted namespace maps container root to the caller and has usable ranges for both kinds or for neither. |
| `UserNamespace.IsMapped` | pkg/bundle/internal/directory/provisioner.go:710-720 | The membership test accepts exactly the IDs that have a host ID. |
| `UserNamespace.MappingsAreInjective` | pkg/bundle/internal/directory/userns.go:39-97 | Accepted mappings are injective, stay within 32 bits and send 0 to the caller. |
| `UserNamespace.MappedExactly` | pkg/bundle/internal/directory/provisioner.go:710-720 | Exactly the container IDs from 0 to the granted count are mapped. |
| `RuntimeSpec.Compact` | pkg/bundle/internal/directory/provisioner.go:743-752 | The in-place filter keeps exactly what the functional one keeps, in order. |
| `RuntimeSpec.PruneNamespaces` | pkg/bundle/internal/directory/provisioner.go:722-741 | The loop computes the pruning. |
| `RuntimeSpec.PrunedShape` | pkg/bundle/internal/directory/provisioner.go:722-741 | Exactly one user namespace and no network or cgroup namespace remain. |
| `RuntimeSpec.PrunedMembers` | pkg/bundle/internal/directory/provisioner.go:722-741 | A namespace of any other kind than user stays exactly when it is neither a network nor a cgroup namespace. |
| `RuntimeSpec.PrunedKeepsOrder` | pkg/bundle/internal/directory/provisioner.go:722-741 | All other namespaces keep their order; the first user namespace stays in place, or one is added at the end. |
| `RuntimeSpec.ValidateProcessUserIDsMapped` | pkg/bundle/internal/directory/provisioner.go:695-708 | Accepts exactly mapped users and names the first unmapped ID otherwise. |
| `RuntimeSpec.SetupRootlessRuntimeSpec` | pkg/bundle/internal/directory/provisioner.go:510-580 | Rewrites the spec, accepted or not, and accepts exactly when the resulting user is mapped; a missing spec or process changes nothing. |
| `RuntimeSpec.RewrittenIsRootless` | pkg/bundle/internal/directory/provisioner.go:510-580 | One user namespace, no network or cgroup namespace, no masked or read-only path below /proc, both mapping capabilities. |
| `RuntimeSpec.RequestIsFollowed` | pkg/bundle/internal/directory/provisioner.go:553-574 | User ID, group ID, additional groups, terminal, arguments, environment and directory are the requested ones where given, and unchanged where not. |
| `RuntimeSpec.CapabilitiesAreKept` | pkg/bundle/internal/directory/provisioner.go:528-537 | The bounding set gains CAP_SETUID and CAP_SETGID and loses nothing; the other sets stay. |
| `RuntimeSpec.PathsAreKept` | pkg/bundle/internal/directory/provisioner.go:538-547 | A masked or read-only path goes exactly when it is /proc or below it; the mappings are the namespace's. |
| `RuntimeSpec.MountsAreKept` | pkg/bundle/internal/directory/provisioner.go:551-552 | A mount goes exactly when its type is cgroup or cgroup2 or it is at or below /sys/fs/cgroup; the extra mounts follow in order. |
| `RuntimeSpec.CgroupMountsExactly` | pkg/bundle/internal/directory/provisioner.go:551-552 | No cgroup mount remains exactly when no extra mount is one. |
| `RuntimeSpec.RewritingSettlesExactly` | pkg/bundle/internal/directory/provisioner.go:510-580 | Rewriting is idempotent exactly when each extra mount is a cgroup mount, so without extra mounts. |
| `RuntimeSpec.EmptyGidsReplace` | pkg/bundle/internal/directory/provisioner.go:572-574 | A given but empty group list removes a process's groups, which the documented rule keeps. |
| `RuntimeSpec.DocumentedGidsExactly` | pkg/bundle/contract.go:110-111 | The code follows the documented rule exactly when the list is not given, not empty, or there are no groups to lose. |
| `RuntimeSpec.AcceptedSpecIsMapped` | pkg/bundle/internal/directory/provisioner.go:575-577 | An accepted spec runs only with mapped IDs, and only 0 is the caller. |
| `BundleRemoval.BudgetDrops` | pkg/bundle/internal/directory/provisioner.go:289-307 | Each round that does not end the loop uses up one of the 51 units of one path. |
| `BundleRemoval.Attempt` | pkg/bundle/internal/directory/provisioner.go:269-281 | A permission error is retried exactly once when the directories could be made writable, and nothing else is; a removal is not overlooked. |
| `BundleRemoval.RemoveRuntimeMutatedBundle` | pkg/bundle/internal/directory/provisioner.go:254-309 | At most 51n+1 rounds for n paths; success after a removal or when the bundle directory itself is reported missing, and neither is ever overlooked; giving up takes the second missing or the fifty-first busy report of one path, and every other error has its cause. |
| `BundleRemoval.Judge` | pkg/bundle/internal/directory/provisioner.go:283-307 | Exactly which errors lead to another round, and with which result the others end the loop. |
| `BundleRemoval.Round` | pkg/bundle/internal/directory/provisioner.go:265-308 | One round either keeps what the loop knows or ends it with an answer that has its cause. |

## Left out

- HTTP routing, signature checks, pages, JSON decoding and webhook parsing: plumbing around the admission step.
- `validateStoredJobs` appears only as a start that fails; candidate file names and their removal are not modelled.
- SQLite, its write-ahead log and fsync: each statement is one atomic durable step.
- Git checkouts, BuildKit, RootlessKit, runc, umoci, registry pulls, downloads and tool installation: `execute`, `cleanup`
  and `buildUpdate` have arbitrary outcomes, and a fetched layout is an arbitrary value. Child processes that survive a
  crash of the server are not modelled.
- Liveness: timeouts and cancellations may happen at any point, so nothing is claimed to happen eventually, except that
  loops with a bound end.
- Wall-clock times beyond an ordered created_at and non-zero record times.
- Reference parsing and canonicalization, which a library does; references are taken as canonical and without line breaks.
- `ImageStore.Store.CommitPulled`: Pull's first locked section is `ExistingValidImage`; the time between its two sections,
  when the lock is free, is covered at the level of single writes and not inside one method.
- `ImageStore.Store.CopyGraph`: sizes are unbounded integers, so an overflow of the 64-bit total is not modelled, and a
  malformed digest, on which the digest library panics before the blob is opened, counts as an invalid layout.
- `ImageLayout.VisitIsReachability`: without uniformity only the conditions named "Exactly" are given, because which
  descriptor of a digest is met first depends on the whole traversal.
- The platform fields of the image format beyond operating system, architecture and variant, and the listing of records.
- `ProcessLog.EveryCutGivesTheLines`: text is characters, not UTF-8 bytes; a cut inside a character is the same to the
  writer, which joins a line before it looks at it.
- `UserNamespace.FirstLineDecides`: the scanner's line limit is counted in characters.
- `RuntimeSpec.SetupRootlessRuntimeSpec`: nested parts of the spec are values, so sharing of slices between specs is not
  modelled; translating mounts and creating their targets rest on path libraries.
- `BundleRemoval.RemoveRuntimeMutatedBundle`: the first unmounting of nested mounts, whose error the code ignores, and the
  pause between rounds.
- The remaining packages (runtime, factories, host probes, logging, configuration): argument checks with single branches.
