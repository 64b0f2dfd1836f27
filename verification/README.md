# Drone server: verified models of scheduling, execution and synchronization

Drone runs continuous-integration builds.  A build is a set of stages with
dependencies; agents take stages from a queue, run them, and report back, and every
write to the store is a compare-and-set on a version column.  This project models
that machinery in Dafny and proves what it keeps.

* **Execution protocol.**  `Core`, `Store`, `Deps` and `Protocol` describe the stage
  and build tables and a state machine in which any number of clients (runner
  loops, cancel, approve and decline requests) interleave single store operations with
  the passes of the queue.
  Everything about whole runs is proved on this one machine: `Claim` and `Final`
  (claims, final rows, announcements), `Moves` (every way a row can change), `Reach` and `Boundary` (where these end),
  `Release`, `Single` and `Exact` (releases and settlement), `Order` (dependency order
  and run policy), `Absent` (dependencies that name no stage), `Witness` (runs that show
  why the hypotheses on stamps and sweeps are needed), `Progress` and `Complete`
  (progress).  `Teardown` gives the two
  teardown loops as functions, `Serial` the outcome of a teardown nobody disturbs, and
  `Manager` the loops of the build manager as methods over the two tables, with a proof
  that its teardown is a run of the protocol.
* **Queue.**  `Queue` holds the matching pass, `Greedy` its quality and the
  concurrency limit in one snapshot, `Dispatch` the dispatcher with its wake-up
  channel as a concurrent system, `Canceller` the cancel table.
* **Indexes and caches.**  `Index` (the MySQL table of unfinished stages), `Batch`
  and `Syncer` (repositories and permissions against the remote listing), `Counter`
  (build numbers), `Scan` (grouping the rows of the stage and step join).
* **Creation, cancellation, logs.**  `Trigger`, `Cancel` and `Livelog`.

How to read the model:

* A client of `Protocol` holds copies of rows.  Edits it makes to a copy between two
  store operations take effect at the operation that writes them, so a step is one
  read, one listing, or one compare-and-set.  `Abort` is enabled everywhere and
  stands for a crash or an early error return.  The log records who won which write.
* A pass of the queue is a listing, which puts the ready stages on offer (pending,
  unassigned and within their limit, as `Dispatch.EligibleIsReady` relates to the loop of
  `Queue`), some hand-overs of stages on offer, and an end that withdraws the rest.
  Passes are serial.  Any stage on offer may go to any idle client: which worker matches
  is the subject of `Queue` and `Greedy`.
* A run is *quiet* when it contains no skip and no cancel of a stage.  Single release,
  single settlement and exactly one release are stated for quiet runs; the code does
  not promise them otherwise.
* `Order` allows skips.  It asks that at most one client at a time is in the loops of a
  teardown of a given build, and that nobody cancels or approves; claims, setups and
  reports of sibling stages, other builds and crashes interleave with a sweep.  Without
  skips, `Exact.QuietOrder` needs no such hypothesis.
* A run is *smooth* when the stages it creates run on success, are approved, have no
  negative limit and have present, acyclic dependencies, every runner reports a pass, reports are stamped in the
  order of the commits, nobody cancels and no busy runner crashes.  Teardowns may overlap.
  Polling may go on for ever, so finiteness is a bound on the operations of busy clients.
* Clock readings are parameters.
* The dependency tests scan the listed stages, so a dependency that names no stage of
  the build is ignored; a stage that depends only on absent names is never released
  (`Absent.AbsentNeverReleased`).  Smooth runs therefore require that every name is
  present.
* `Accept` looks only at the machine column.  A stage that is cancelled between the
  listing of a pass and its hand-over goes back to pending when an agent accepts it
  (`Boundary.CancelledRowReopens`); once the pass is over and nobody has been handed it,
  the row is final (`Boundary.PassedOverIsFinal`).  A runner that accepted a stage before
  it was cancelled and reads it afterwards does not run it, since the build is killed
  first, but can still overwrite the status with an error it meets before it looks at the
  build.  `Boundary.FinalIffSealed` gives the exact condition under which a finished row
  is final; rows that a teardown skipped or that were declined
  (`Boundary.SkippedIsFinal`), rows finished after `BeforeAll` and rows that a teardown
  reported all meet it.
* Synchronization refreshes columns of a repository row without a new version, so a
  client that read the row before can still write the old columns back;
  `Counter.RefreshSurvives` says exactly when they survive.  Build numbers are not
  affected.
* A second Cancel of a build while one of its woken watchers is still registered closes
  a channel twice and panics; `Canceller.Canceller.Cancel` says exactly when.

## Model

| member | source | states |
|---|---|---|
| Claim.BaseStep | store/stage/stage.go:188-217 | every step of any client keeps: a copy at the current version equals its row, a copy is never ahead, identity columns never change, and no two clients work on one stage |
| Final.ExclusiveClaim | operator/manager/manager.go:184-219 | over every run at most one Accept per stage succeeds, at most one setup commits, and at most one poller is busy with a stage, for non-empty machine names |
| Boundary.ExclusiveIffNamed | operator/manager/manager.go:184-219 | from a start state every run accepts each stage at most once if and only if every client has a machine name |
| Boundary.EmptyNameClaimsTwice | operator/manager/manager.go:199-206 | after a runner without a machine name has accepted a stage, a next pass can hand it to any client, which accepts it again |
| Boundary.UnassignedRowReopens | operator/manager/manager.go:193-208 | a row without a machine that a pass still offers, that a client has been handed, or that a client has read and holds a current copy of, can still be accepted, finished or not |
| Boundary.CancelledRowReopens | handler/api/repos/builds/cancel.go:149-160 | from every initial state a run cancels a stage between its listing and its hand-over and then accepts it, so its done row goes back to pending |
| Boundary.FinalIffSealed | store/stage/stage.go:188-217 | a finished row of a reachable state never changes again, whatever happens, if and only if it has a machine or is withdrawn (no longer on offer, handed to nobody who has yet to read it, read only by clients that are stale by now) and every runner that holds it is stale |
| Boundary.PassedOverIsFinal | scheduler/queue/queue.go:113-180 | a finished row without a machine, listed or not, that no client has been handed is final once the pass is over |
| Boundary.SkippedIsFinal | operator/manager/teardown.go:172-217 | a row that stops waiting or being blocked by becoming done, skipped, cancelled or declined, never changes again |
| Boundary.ListedNeverDeclined | handler/api/repos/builds/stages/decline.go:56-66 | in every run a row the queue has listed neither waits nor is blocked or declined |
| Final.SealedForever | store/stage/stage.go:188-217 | a finished row that has a machine or is withdrawn, held only by stale runners, never changes again |
| Final.FinalStatusIsFinal | handler/api/repos/builds/cancel.go:149-160 | once BeforeAll has committed, the first done status stored, by the runner or by a cancel, stays in every column for the rest of the run |
| Final.ReportIsFinal | operator/manager/teardown.go:68-74 | the row a teardown reports is done and never changes again |
| Final.SingleAnnouncement | operator/manager/setup.go:153-168 | at most one updateBuild per build returns true, in every interleaving |
| Final.SettleStores | operator/manager/teardown.go:95-129 | the last operation of a teardown stores nothing while a listed stage is pending, running, waiting, declined or blocked, and otherwise passing if no listed stage is killed, failing or in error, else the status of the first that is |
| Moves.StageMoves | store/stage/stage.go:188-217 | over every run, a change of a stage row is one of eight moves, each with its old status, its new columns and its event |
| Moves.BuildMoves | operator/manager/setup.go:153-168 | over every run, a change of a build row is an announcement of a pending build, a settlement, a kill of a pending or running build, or a decline, each with its new columns |
| Moves.StartedIffBegan | operator/runner/runner.go:456-463 | over every run, a stage that has not been finished has a start time if and only if its setup has committed |
| Moves.CancelKillsWhatBegan | handler/api/repos/builds/cancel.go:149-160 | over every run, a cancel that changes a stage not finished before kills it if its setup has committed and skips it if not |
| Moves.KilledNeverBegins | operator/runner/runner.go:152-156 | over every run, a stage whose runner found the build killed or skipped is never set up, by that runner or by another |
| Single.SingleRelease | operator/manager/teardown.go:222-271 | in quiet runs at most one teardown passes every test for a given downstream stage, and once |
| Single.SingleSettlement | operator/manager/teardown.go:95-129 | in quiet runs at most one teardown commits the final build status, and every stage of a settled build is done |
| Single.SettledVerdict | operator/manager/teardown.go:95-129 | in quiet runs the step that settles a build finds no stage of it unfinished or declined and stores passing if no row is killed, failing or in error, else the status of the oldest row that is |
| Exact.QuietOrder | operator/manager/teardown.go:222-271 | in quiet runs, however teardowns overlap, a stage that has left the waiting state has all its dependencies done |
| Exact.ExactlyOneRelease | operator/manager/util.go:65-84 | with stamps ordered like the commits, a stage created waiting whose dependencies have all finished and left the release loop has been released exactly once and no longer waits |
| Teardown.SkipTurn | operator/manager/teardown.go:172-217 | one protocol turn of the skip loop changes rows and list as the loop function does |
| Teardown.ReleaseTurn | operator/manager/teardown.go:222-271 | one protocol turn of the release loop changes rows and list as the loop function does |
| Teardown.SkipPointwise | operator/manager/teardown.go:172-217 | the skip loop marks exactly the listed waiting stages that do not run on success, or on failure if one has failed, with their times, and leaves every other row |
| Teardown.ReleaseStable | operator/manager/util.go:49-84 | releasing one stage changes no release test of another |
| Teardown.ReleasePointwise | operator/manager/teardown.go:222-271 | the release loop releases exactly the stages that pass the tests on the list it started with |
| Teardown.SchedulesWake | operator/manager/teardown.go:222-271 | over a mirrored list the scheduler is called for exactly the rows that were waiting and are pending after the loop, once each, in list order |
| Serial.TeardownOutcome | operator/manager/teardown.go:76-129 | what a whole teardown makes of each row, in terms of the statuses, stamps, numbers, dependencies and run policy of the rows |
| Serial.SweptWakes | operator/manager/teardown.go:222-271 | a whole teardown schedules exactly the rows that were waiting before it and are pending after it, once each, oldest first |
| Serial.ListedVerdict | operator/manager/teardown.go:95-117 | the list decides completeness and final status as the rows of the build do: the oldest killed, failing or erroneous stage, or passing |
| Order.DependencyOrder | operator/manager/teardown.go:172-271 | in every reachable state of runs whose sweeps of one build do not overlap, a stage that is pending, running or has run has all its present dependencies done |
| Order.RunPolicy | operator/manager/teardown.go:183-193 | in such runs a waiting stage is released or skipped only by a sweep of its build, by whether a stage done when the sweep listed the build had failed |
| Order.RunPolicyNow | operator/manager/teardown.go:183-193 | with teardowns serialised from the report on, a released stage allows failure if some stage has failed and success otherwise, and a skipped one does not |
| Witness.StampsMatter | operator/manager/util.go:65-84 | from every initial state a quiet run ends with a stage that waits and was never released, although its dependencies have all finished and left the release loop, because the later report has the earlier stamp |
| Witness.OverlapMatters | operator/manager/teardown.go:172-271 | from every initial state with two clients a run without cancel or approval, with two overlapping sweeps, makes a stage pending while its dependency is pending |
| Absent.AbsentNeverReleased | operator/manager/util.go:40-63 | over every run a waiting stage whose dependencies name no stage of the build keeps its row until it is skipped or cancelled, and never becomes pending |
| Progress.HealthyStep | operator/manager/teardown.go:68-129 | every smooth step keeps: assigned stages have a runner until their teardown is through, copies of runners are current, a complete build is settled as passing or about to be |
| Complete.RunsInOrder | operator/manager/teardown.go:222-271 | in smooth runs each stage is accepted, begun and finished at most once and only after all its dependencies have finished |
| Complete.WorkIsBounded | operator/runner/runner.go:522-578 | between creations of builds the operations of busy clients are bounded by the work there was, quadratic in the number of stages |
| Complete.NeverStuck | operator/manager/teardown.go:68-129 | as long as work is left, a smooth continuation does some of it |
| Complete.NoWorkIsComplete | operator/manager/teardown.go:95-129 | when no work is left every stage has passed and every build is passing |
| Complete.RunsComplete | operator/manager/teardown.go:68-129 | from every reachable state of a smooth run a smooth continuation ends with every stage and build passing |
| Complete.ChainCompletes | trigger/trigger.go:307-382 | from every initial state with a client a build with a dependency can be created and run smoothly until both stages have passed |
| Manager.IsBuildComplete | operator/manager/util.go:11-23 | true exactly when no stage waits, is pending, runs, is declined or is blocked |
| Manager.IsDep | operator/manager/util.go:40-47 | true exactly when the name is among the dependencies |
| Manager.AreDepsComplete | operator/manager/util.go:49-63 | true exactly when no listed dependency is waiting, pending, running or blocked |
| Manager.IsLastDep | operator/manager/util.go:65-84 | true exactly when no listed dependency has a later stamp, or the same stamp and a larger number |
| Store.CompareAndSet | store/stage/stage.go:188-217 | writes exactly when the version is current; the row takes the columns the statement names and keeps the others, row and copy move to the next version |
| Manager.BuildManager.UpdateStage | store/stage/stage.go:188-217 | writes exactly when the version is current, keeps the identity columns, bumps row and copy |
| Manager.BuildManager.Accept | operator/manager/manager.go:184-219 | with other writers between its read and its write, it wins exactly if the row it read was unassigned and has not been written since |
| Manager.ReachesGrows | store/stage/stage.go:188-217 | whatever clients of the protocol do, rows stay and an unchanged version means an unchanged row |
| Manager.BuildManager.UpdateBuild | operator/manager/setup.go:153-168 | true exactly for a current pending copy, whose build becomes running |
| Manager.BuildManager.ListSteps | store/stage/stage.go:83-101 | all stages of the build, by ascending id |
| Manager.BuildManager.CancelDownstream | operator/manager/teardown.go:172-217 | the two loops compute the skip function of the table and the list; over a mirrored list, the outcome record by record |
| Manager.BuildManager.ScheduleDownstream | operator/manager/teardown.go:222-271 | the loop computes the release function; over a mirrored list it schedules exactly the rows that were waiting and are pending now, once each, in list order |
| Manager.BuildManager.FinalStatus | operator/manager/teardown.go:102-117 | passing exactly if no listed status is killed, failing or error, otherwise the status of the first stage with one of these |
| Manager.BuildManager.Do | operator/manager/teardown.go:32-129 | an undisturbed teardown stores the report, applies both loops to the listing, schedules exactly the stages that went from waiting to pending, and closes the build exactly if none of its rows is unfinished or declined, with the verdict over the rows; or it changes nothing |
| Manager.TornOutcome | operator/manager/teardown.go:76-129 | row by row what that teardown does to the stages of its build, and that it changes no other row |
| Manager.DoIsARun | operator/manager/teardown.go:32-129 | the protocol operations of a client that nobody disturbs lead to the tables that Do computes |
| Queue.CheckLabels | scheduler/queue/queue.go:210-220 | true exactly when the label maps are equal |
| Queue.WorkerMatches | scheduler/queue/queue.go:137-159 | true exactly when os and arch are equal, variant and kernel are equal or not asked for, and the labels are equal as maps |
| Queue.CheckLimits | scheduler/queue/queue.go:222-242 | true exactly when unlimited or fewer listed stages of the repository and name have a smaller id than the limit |
| Queue.Queue.Schedule | scheduler/queue/queue.go:39-45 | a token is in the channel afterwards |
| Queue.Queue.Resume | scheduler/queue/queue.go:61-71 | not paused and a token is in the channel |
| Queue.Queue.Register | scheduler/queue/queue.go:73-91 | the worker waits and a token is in the channel |
| Queue.Queue.FindWorker | scheduler/queue/queue.go:135-180 | some matching worker, or none matches |
| Queue.Queue.Pass | scheduler/queue/queue.go:116-182 | each stage and worker used at most once, deliveries eligible and equal in os, arch, labels and the variant and kernel asked for, every remaining worker differs in one of these from an undelivered eligible stage, no stage takes a worker an older undelivered eligible one could use |
| Queue.Queue.Signal | scheduler/queue/queue.go:102-182 | nothing while paused or without workers, otherwise a correct pass |
| Greedy.GreedyIsHalfOptimal | scheduler/queue/queue.go:118-180 | a pass delivers at least half as many stages as any valid one-to-one assignment |
| Greedy.LimitPassesSmallest | scheduler/queue/queue.go:222-242 | in one snapshot exactly the min(limit, n) smallest ids of a group pass |
| Dispatch.SnapshotIsListIncomplete | store/stage/stage.go:103-122 | the dispatcher's snapshot is the answer to ListIncomplete |
| Dispatch.EligibleIsReady | scheduler/queue/queue.go:113-133 | a listed stage may be delivered by a pass exactly if it is a ready stage of the protocol |
| Dispatch.ReadyIsListed | scheduler/queue/queue.go:113-133 | every ready stage of the protocol is in the snapshot |
| Dispatch.NoLostWakeup | scheduler/queue/queue.go:39-195 | not paused, idle, no token, no send outstanding: every waiting worker differs in os, arch, labels or a variant or kernel asked for from every pending, unassigned, unlimited, undelivered stage, in every reachable state |
| Dispatch.LimitHolds | scheduler/queue/queue.go:113-133 | at most limit stages of a group are assigned or running in every reachable state, although passes use stale snapshots |
| Canceller.TableHolds | scheduler/queue/canceller.go:27-38 | after any run of cancels the table holds exactly the builds last cancelled at most five minutes before the latest sweep |
| Canceller.PollIsRight | scheduler/queue/canceller.go:56-62 | a hit means a real cancel, and a poll within five minutes of a cancel hits |
| Canceller.Canceller.Cancel | scheduler/queue/canceller.go:27-38 | panics exactly if a woken watcher of the build is still registered; otherwise table and watchers after the cancel, and the invariant that ties both to the history |
| Canceller.Canceller.WakeAll | scheduler/queue/canceller.go:30-34 | panics exactly if one of them was woken before, otherwise exactly the watchers of the build are woken |
| Canceller.Canceller.Collect | scheduler/queue/canceller.go:69-80 | exactly the entries that have not expired remain |
| Canceller.Canceller.Register | scheduler/queue/canceller.go:40-44 | the watcher is registered from now on |
| Canceller.Canceller.Poll | scheduler/queue/canceller.go:56-62 | true only after a cancel; false means none in the last five minutes |
| Canceller.Canceller.Woken | scheduler/queue/canceller.go:63-65 | a watcher's channel is closed exactly when its build was cancelled since it registered |
| Canceller.Canceller.Unregister | scheduler/queue/canceller.go:46-50 | the watcher is gone, the invariant stays |
| Livelog.Subscriber.Publish | livelog/sub.go:21-31 | an open subscriber with room takes the line; nothing else is reordered or invented |
| Livelog.Subscriber.Receive | livelog/sub.go:13-19 | the reader takes the oldest buffered line |
| Livelog.Stream.Write | livelog/stream.go:33-47 | history stays the last min(n, 5000) lines; every open subscriber with room gets the line |
| Livelog.Stream.Subscribe | livelog/stream.go:49-72 | the new subscriber starts with the whole history, none dropped |
| Livelog.Stream.Close | livelog/stream.go:74-82 | all subscribers closed and removed, their lines kept |
| Livelog.Stream.Read | livelog/sub.go:13-19 | the oldest line, from a listed or a removed subscriber |
| Livelog.Stream.Handover | livelog/stream.go:33-82 | received plus buffered lines of a listed or removed subscriber occur in order in replay followed by the writes until its removal, and are all of them unless a line was dropped; none is while it is open and never full |
| Counter.UniqueNumbers | store/repos/repos.go:220-235 | over every run numbers are consecutive from the start, pairwise distinct, and the counter is the last |
| Counter.RetriesBounded | store/repos/repos.go:220-235 | a rejected attempt means a newer row or a deleted one; failures never exceed the commits since the first read |
| Counter.RunRelies | store/repos/repos.go:172-200 | between any two points of a run, synchronizations included, versions grow, an unchanged version means an unchanged counter and no new number, a deleted row stays deleted |
| Counter.RefreshSurvives | store/batch/batch.go:116-128 | in every reachable state the refreshed columns survive all that clients do until the next synchronization if and only if no client holds a copy of the current version with older columns |
| Counter.RefreshIsLost | store/repos/repos.go:404-432 | from every initial state a run reads the row, refreshes it and saves the copy, which writes the old columns back |
| Counter.OverwriteIsSafe | handler/api/repos/update.go:100-102 | after an administrator stores counter v, for the first time or again, later numbers stay distinct if and only if no issued one is above v |
| Counter.RepoStore.Update | store/repos/repos.go:172-200 | stores any copy exactly when its version is current |
| Counter.RepoStore.Increment | store/repos/repos.go:220-235 | ends whatever others do, with the next number or an error for a deleted row |
| Index.SameRows | store/stage/stage.go:254-274 | ascending lists of the same rows are equal |
| Index.IndexAnswers | store/stage/stage.go:254-274 | with the index in step, the indexed query answers the plain query |
| Index.DriversAgree | store/stage/stage.go:54-122 | the MySQL and the plain form return the same ordered list |
| Index.MissingIdIsLost | store/stage/stage.go:270-274 | an index that misses an unfinished row loses it |
| Index.StageTable.Insert | store/shared/migrate/mysql/ddl_gen.go:395-403 | the insert trigger keeps the index exact and never meets a duplicate key |
| Index.StageTable.Update | store/shared/migrate/mysql/ddl_gen.go:405-415 | the update trigger keeps the index exact for every compare-and-set |
| Index.StageTable.ListIncomplete | store/stage/stage.go:103-122 | every pending and running row, oldest first, on either driver |
| Index.StageTable.ListState | store/stage/stage.go:54-81 | every row of the state, oldest first, on either driver |
| Scan.ScanRowsWithSteps | store/stage/scan.go:177-198 | the loop computes the grouping of the rows |
| Scan.RoundTrip | store/stage/scan.go:177-198 | scanning flattened stages gives them back if and only if neighbouring ids differ and no step id is zero |
| Scan.ScanThenFlatten | store/stage/scan.go:177-198 | flattening what was scanned from ordered rows gives the rows back |
| Scan.QueryThenScan | store/stage/stage.go:325-332 | scanning any answer to the join query gives every stage once, ascending, with exactly its own steps, ascending |
| Batch.Batcher.Batch | store/batch/batch.go:37-169 | all statements take effect in order, or none |
| Batch.InsertedPerms | store/batch/batch.go:59-109 | the insert loop grants exactly the listed uids and changes no other row |
| Batch.InsertedRows | store/batch/batch.go:59-82 | old rows stay, new rows are listed records under fresh ids, a record without a row lost to its slug |
| Batch.UpdatedRows | store/batch/batch.go:116-128 | exactly the named rows are refreshed, and uids, ids and slugs stay unique |
| Batch.UpdatesSucceed | store/batch/batch.go:116-128 | without slug collisions no update fails, in any order |
| Batch.RevokedPerms | store/batch/batch.go:154-165 | exactly the listed uids of the user are removed |
| Syncer.MergeSettles | service/syncer/util.go:24-62 | after a merge is stored a difference remains exactly when the remote link is empty and a link was stored; the slug follows the name and the columns the merge does not own are kept |
| Syncer.RemoteHas | service/syncer/syncer.go:97-109 | the remote map holds exactly the uids of entries that pass the filter, each with the last such entry |
| Syncer.SyncPermissions | service/syncer/syncer.go:88-185 | afterwards the user's permissions are the filtered remote uids and earlier ones without a repository row, all stale with rights kept; other users' rows are untouched |
| Syncer.SyncIsExact | service/syncer/syncer.go:88-185 | they are exactly the remote uids if and only if every permission without a row is on a listed repository |
| Syncer.SyncRefreshes | store/batch/batch.go:116-128 | column by column: a row the user could see takes the namespace, name, urls, privacy and branch of the remote entry, and its link unless that is empty, with a new slug and update time exactly if one of the seven columns differed; a row the user could not see stays; a new row is the entry |
| Syncer.SyncSucceeds | store/batch/batch.go:116-128 | without slug collisions the batch is not rolled back |
| Syncer.SecondSyncIsEmpty | service/syncer/syncer.go:134-175 | a second sync of the same listing is empty if and only if every listed repository settles, by a condition on the state before the first |
| Syncer.Synchronizer.Remote | service/syncer/syncer.go:97-109 | the loop computes the remote map |
| Syncer.Synchronizer.Inserts | service/syncer/syncer.go:134-144 | exactly the remote repositories without a local one, once each, with their times and version one |
| Syncer.Synchronizer.Updates | service/syncer/syncer.go:151-162 | exactly the local repositories that differ from the remote one in one of seven columns, once each, with the merged columns |
| Syncer.Synchronizer.Revokes | service/syncer/syncer.go:169-175 | exactly the local repositories that are not listed, once each |
| Syncer.Synchronizer.Sync | service/syncer/syncer.go:88-185 | the batch, its effect, the permissions afterwards, and for each listed repository the user could see: its columns afterwards, and that it is updated exactly if one of seven columns differed; a failed batch changes nothing |
| Trigger.Triggerer.NewStage | trigger/trigger.go:308-350 | blocked exactly if unverified, otherwise pending exactly without dependencies and else waiting; never runs on failure without a status condition; the three defaults |
| Trigger.Triggerer.Store | store/build/build.go:162-195 | the stages are stored under new ascending keys at version one |
| Trigger.Triggerer.ScheduleFirst | trigger/trigger.go:369-382 | schedules the stages without dependencies that are not blocked, in order |
| Trigger.Triggerer.Trigger | trigger/trigger.go:266-382 | the tables change by a Create step of the protocol; every stored stage column by column; nothing is scheduled without approval, and otherwise exactly the stages without dependencies, once each |
| Cancel.Tables.CancelStage | handler/api/repos/builds/cancel.go:149-160 | the row is killed or skipped if the copy is unfinished and current |
| Cancel.Tables.CancelSteps | handler/api/repos/builds/cancel.go:171-183 | exactly the unfinished, current steps of the stage are killed or skipped, with exit code 130 |
| Cancel.Tables.CancelAll | handler/api/repos/builds/cancel.go:149-195 | every listed stage and the steps of unfinished ones are dealt with, no other row changes |
| Cancel.CancelFinishes | handler/api/repos/builds/cancel.go:149-160 | with a current listing every stage of the build ends done, killed exactly if it had started, with its new times; finished stages and other builds stay |
| Cancel.CancelFinishesSteps | handler/api/repos/builds/cancel.go:171-183 | likewise for steps, with exit code 130 and every other column kept, and steps of finished stages stay |
| Cancel.GroupedIsDistinct | store/stage/stage.go:325-332 | the listing that cancel walks has distinct keys |

## Left out

- Store failures other than a rejected version: a failing statement appears in the protocol only as `Abort`.
- Protocol steps: creation and update of step rows, log upload and deletion, secrets and netrc are not part of the protocol machine.
- Error text, exit codes of stages, kind, type and the created column of stage rows are not modelled; neither is the 64-bit width of ids and times.
- Moves.StartedIffBegan: for clocks that do not read zero; the start time that a runner has set in its copy when setup fails before the stage update is not part of the report in the model.
- Single.SingleRelease: stated for quiet runs, because a skip or a cancel finishes a stage without a report of its own and without a new stamp.
- Exact.ExactlyOneRelease: needs stamps ordered like the commits, because stamps have a resolution of one second and are read before the write; Witness.StampsMatter shows a run without it.
- Order.DependencyOrder: without cancel and approval, since an approval makes a stage pending whatever its dependencies; and for sweeps of a build that do not overlap, since a sweep takes a skip for done even when its write was lost (Witness.OverlapMatters).
- Complete.RunsComplete: builds with failing, skipped or missing dependencies, and runners that crash, may leave a build incomplete; the code does not promise otherwise.
- Syncer.SyncSucceeds: sufficient only; whether a batch with colliding slugs fails depends on the unspecified iteration order of a map.
- Syncer.Synchronizer.Sync: the listing, the query of local rows and the batch act on one state; two syncs that overlap and the update of the user record are not modelled.
- Batch.Batcher.Batch: width limits of text columns and driver differences of the ignore clause are not modelled.
- Queue.Queue.Pass: the blocking send is an atomic hand-over to a worker that is still receiving; a worker whose context ends between registration and hand-over is not modelled beyond its removal.
- Dispatch.NoLostWakeup: a listing that fails, and the deprecated schedulers, are not modelled.
- Cancel.Tables.CancelAll: one clock reading per stage stands for the readings of its loop body; sending webhooks and statuses is left out.
- Livelog.Stream.Read: reads by a subscriber happen between stream operations, since they commute with publishing to other subscribers.
- Counter.RepoStore.Increment: other clients act finitely often; with unboundedly many the loop may retry for ever.
- Trigger: parsing, linting, signing and matching of the configuration are inputs (`matched` and `verified`), as is the result of the status conditions.
- Purging of old builds (handler/api/repos/builds/purge.go): no build row is ever removed from the protocol's tables.
- HTTP handlers, sessions, access control, the remote procedure calls, Kubernetes and Nomad, source-control services, secrets, encryption, the content cache and pubsub: plumbing, foreign clients, or parts that would only add easy members.
