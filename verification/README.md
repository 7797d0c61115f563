# A verified model of the distributed task runtime

The runtime is a coordinator, workers that run processes, and clients. The coordinator keeps four views of every task in
step: the per-node `running_tasks` index, the `tasks` table, the broadcast log of events, and the `pending` set of every
waiting client. This project models that protocol and the code around it, and proves what the four views promise each
other over every run of the whole system.

`dafny verify dfyconfig.toml` checks everything.

## The parts

* `Protocol`, `Text`, `Sequences`: messages, identifiers, text and sequence helpers.
* `JobStore`: the SQL tables as a map and a sequence. Upserts are functions from table to table; the object
  `SqliteJobStore` updates in place and is tied to them.
* `CoordinatorCore`: every handler of the coordinator, cut at its lock, store and broadcast boundaries. What a handler
  still has to do is its continuation (`Cont`); `Advance` is the next section, `Finish` runs to the end.
* `Coordinator`: the object `AppState` with the handlers as imperative methods, each proved to do what the sections do
  when nothing comes in between.
* `Cluster`: the whole system as a state machine. One step is one section of one handler, one message on one channel,
  one action of one worker, or one action of one client. Connections are FIFO channels each way; a channel is everything
  ever put into it plus how much was taken out. Workers receive, reject, spawn, log, exit, forward and answer kills; a
  step `Forge` lets a worker send anything at all. `Execution` is any finite sequence of steps from a coordinator start.
* `WakeUp`: no lost wake-up, for arbitrary workers and kills.
* `Lifecycle` (the invariant) with `WorkerSteps`, `CoordinatorSteps`, `ClientSteps`, `DispatchSteps` (each kind of step
  keeps it): the lifecycle of a task under workers that follow their program.
* `IndexInvariant` and `IndexSteps`: a second, independent invariant that ties the index to the table under workers of
  which only their ids are trusted. `Guarantees` says what the two invariants give over runs.
* `SampleRun`: whole runs: one that ends with JobFinished, so the promises are not empty, and one for each place where
  a promise ends.
* `LateKills`, `LostNodes`: failed kills and lost nodes at the level of whole handlers.
* `RunVerdicts`: the conditions on failed kills over whole concurrent runs.
* `NoDeadEnd`: from which states a waiting client can still be told the end of its job.
* `Leases`: what is held, from grant to release, lease exclusion and leased runs, over every run.
* `Requests`, `Processes`, `StoredLines`: over whole runs, the way from a client's request to the process on a worker,
  from the process back to the row of its task, and from its output to the stored lines.
* `WaitLoop`: the loop that follows a job to its end; `Subscriptions`: what it tells a client in a whole run.
* `PosixShell`, `ShellPrinter`, `Torchrun`: the command lines the programs print, and a shell that reads them back.
* `Worker`, `Policy`, `LogReader`, `Diagnosis`, `Auth`: the remaining loops and decisions.

## What the theorems need

* **No lost wake-up** (`WakeUp.NoLostWakeUp`) holds for every execution in which a registration forgets no task
  (`DropsNothing`): the id is not connected, or each of its tasks is also indexed elsewhere. Workers may send anything.
  `handle_worker` replaces the handle of an id that is already connected and drops its tasks without any exit;
  `WakeUp.RegistrationKeepsIff` says for every single state when that does harm, and `SampleRun.ReRegistrationLosesTask`
  reaches such a state.
* **The lifecycle theorems** hold for honest runs (`HonestRun`, `Honest`): workers follow their program, an id registers
  only while it is not connected, and a kill fails only for a task whose worker has already given its verdict. Runs
  without failed kills are among these. The worker answers a failed kill with an error, and the coordinator ends the
  task on any error, so an early one makes the row failed while the task may still start. Two things then go wrong under
  different conditions, and each has its own exact one: `RunVerdicts.FinishedRowStaysInRunIff` for the row leaving a
  finished status, `RunVerdicts.OneExitInRunIff` for a second exit in the log. Both hold of every run of id-echoing
  workers, for a task whose connection is open and for which every error that was read names a node, as the worker's
  errors do; `LateKills` has them for handlers run one after another. `SampleRun.EarlyKillRevivesRow` is a whole run in
  which a row goes from failed to running.
* **Index agreement** needs less (`EchoingRun`, `Echoing`; every honest run is one, `Guarantees.HonestRunEchoes`): an
  id registers only while it is not connected, and whatever a worker sends, in whatever order, names its own tasks with
  the ids of their specs. Kills may fail at any time.
  `Guarantees.IndexedIff` holds between any two sections; the counts and the targets of a kill are stated for states in
  which no handler is under way (`Quiet`).
* A read error leaves `handle_worker` early and never reaches `mark_node_lost`. In the model such a connection goes
  silent (`ReadError`) with its handle still present; all theorems cover it. Its tasks stay indexed, so a client that
  awaits one of them waits on. `NoDeadEnd.WaitCanEndIff` says that nothing else keeps a client waiting for good.
* **Stored lines** (`StoredLines.StoredLinesOfTask`) are promised for every run of id-echoing workers and each task of
  which only its own connection had lines read. In honest runs that is every task (`StoredLines.HonestLinesOfTask`).
* Log lines may follow an exit, because log readers are separate tasks. The waiting loop filters them
  (`QuietAfterExit`); nothing else does.
* A run without a lease ignores leases; it goes to the nodes that `Requests.DispatchFollowsRequest` says.

Identifiers are random UUIDs in the program; here an id is any value that is not yet in use. Clock readings
are integers that are only compared; nothing assumes that clocks agree or advance.

## Model

| member | source | states |
|---|---|---|
| WakeUp.NoLostWakeUp | crates/coordinator/src/main.rs:239-302 | In every state of every execution, whatever workers send: each task a client awaits is indexed under a connected node, or its exit is unread in that client's subscription, or a handler under way still has to broadcast it. |
| WakeUp.DrainedWaiterFinishes | crates/coordinator/src/main.rs:699-737 | Once no connected node and no handler has any of a client's tasks, reading what is already in its subscription empties `pending`. |
| WakeUp.RegistrationKeepsIff | crates/coordinator/src/main.rs:239-250 | In any state in which every client is covered, a registration keeps every client covered if and only if each awaited task of the replaced handle is indexed elsewhere, unread in that client's subscription, or held by a handler under way. |
| SampleRun.ReRegistrationLosesTask | crates/coordinator/src/main.rs:239-250 | In a state that an honest run reaches, a second registration of the id leaves the waiting client uncovered and the queued row in no index. |
| WakeUp.WakeStep | crates/coordinator/src/main.rs:752-819 | Every single step keeps the wake-up invariant. |
| Guarantees.StepKeepsLife | crates/coordinator/src/main.rs:263-302 | Every step of an honest run keeps the whole lifecycle invariant (index, rows, log, channels, verdicts, runs, kills). |
| Guarantees.TaskLifecycle | crates/jobstore/src/lib.rs:100-204 | Over every honest run a row never disappears, moves only queued, running, succeeded/failed or queued, failed, and a finished row keeps its status for good. |
| Guarantees.OneExitPerTask | crates/coordinator/src/main.rs:286-294 | The broadcast log holds at most one exit of a task; one exactly when the row is finished and no handler has it still to send; its outcome, job and node are the row's. |
| Guarantees.OneVerdict | crates/worker/src/main.rs:179-231 | A worker says of a task either one error and no start, or its start before every log line and exactly one exit; a start only of what its policy allows; a rejected or finished and drained task has had its verdict. |
| Guarantees.IndexedIff | crates/coordinator/src/main.rs:271-302 | Between any two sections of any run of id-echoing workers, failed kills included: a task is indexed only at its own node under its own job, and is so exactly while its connection is open, no handler has taken it out to record its end, and its row is unfinished; only its own start or exit on the way to the index may lag. |
| IndexSteps.StepKeepsTracked | crates/coordinator/src/main.rs:228-308 | Every step of such a run keeps the invariant behind it. |
| Guarantees.IndexAgreement | crates/coordinator/src/main.rs:271-302 | In every such run, with no handler under way, the unfinished rows are exactly the disjoint union of the nodes' indexes, with matching job and node. |
| Guarantees.CountsAgree | crates/coordinator/src/main.rs:336-353 | In every such run, with no handler under way, the per-node running counts add up to the number of unfinished rows. |
| Guarantees.KillJobTargetsUnfinished | crates/coordinator/src/main.rs:402-430 | In every such run, with no handler under way and whatever earlier kills did, `kill_job` aims at exactly the job's unfinished tasks, each at its own node; the job is reported running if and only if there is such a target. |
| Guarantees.ClientAnswerAgrees | crates/coordinator/src/main.rs:699-749 | Once JobFinished is sent, the job's rows are exactly its assignments and the stored job status is succeeded iff `success`, otherwise failed, never running. |
| SampleRun.AllowedJobCanFinish | crates/coordinator/src/main.rs:573-749 | Whatever the names, for every nonempty command that the worker's policy allows some honest run ends with JobFinished, success, and a succeeded row. |
| WorkerSteps.WorkKeepsLife | crates/worker/src/main.rs:126-172 | Every honest worker step keeps the lifecycle invariant. |
| CoordinatorSteps.WireKeepsLife | crates/coordinator/src/main.rs:228-308 | Every registration, message section, read error and disconnect keeps the lifecycle invariant. |
| ClientSteps.ClientKeepsLife | crates/coordinator/src/main.rs:668-749 | Every send, wait-loop turn, kill and lease step keeps the lifecycle invariant. |
| DispatchSteps.DispatchKeepsLife | crates/coordinator/src/main.rs:595-667 | Placing a run's tasks keeps the lifecycle invariant, also when the client goes away half way. |
| LateKills.HandleAllTally | crates/coordinator/src/main.rs:263-302 | For any messages in any order, how often an exit of a task is broadcast and whether it stays indexed depend only on its starts, exits and errors. |
| LateKills.FailedKillsAreHarmlessIff | crates/worker/src/main.rs:157-168 | A task that started and exited is reported exited once if and only if every report of a failed kill came after its exit. |
| LateKills.FinishedRowStaysIff | crates/coordinator/src/main.rs:752-780 | For any messages around those of a queued task that has not ended, has started, or has started and exited: its row never leaves a finished status if and only if no failed kill is reported before the start and, when the exit is a success, none before the exit. |
| LateKills.HandleAllStatus | crates/jobstore/src/lib.rs:128-204 | After any messages the row's status is what the task's own starts, exits and errors come to. |
| RunVerdicts.HeardDecides | crates/coordinator/src/main.rs:263-302 | In every state of every run of id-echoing workers, failed kills at any time: for a task whose connection is open, has no handler under way and has named a node in every error about it, what was read there decides the row's status, whether the task is indexed and how many exits the log holds. |
| RunVerdicts.FinishedRowStaysInRunIff | crates/coordinator/src/main.rs:752-780 | In such a run, when what was read of that task is no start, a start, or a start and one exit beside any failed kills, its row never left a finished status, in any state so far, if and only if no failed kill was read before its start and, when its exit is a success, none before the exit. |
| RunVerdicts.OneExitInRunIff | crates/worker/src/main.rs:157-168 | In such a run a task whose start and exit were read has exactly one exit in the log if and only if every failed kill was read after its exit. |
| StoredLines.StoredLinesOfTask | crates/coordinator/src/main.rs:282-285 | In every run of id-echoing workers, failed kills at any time: the stored lines of a task are those its connection has read, each once and in order, followed by one line about the disconnect if and only if the connection was lost while the row was unfinished and the handler has got to it. |
| StoredLines.HonestLinesOfTask | crates/worker/src/main.rs:211-231 | In an honest run this holds of every task, for only its own connection ever has lines of it. |
| Processes.SentWasCaused | crates/worker/src/main.rs:126-231 | In every execution each message of a worker was caused by a step of that worker: a start by a spawn, a line by output, an exit by an exit of that very outcome, an error by a rejection or a failed kill, unless it was made up. |
| Processes.RowTellsProcess | crates/jobstore/src/lib.rs:128-204 | In every honest run, on an open connection with no handler under way, a row is succeeded only if the process exited with success, running only if it was spawned, failed only if it exited without success, was rejected or a kill failed. |
| NoDeadEnd.WaitCanEndIff | crates/coordinator/src/main.rs:699-749 | From any state of any honest run, honest steps can still bring a waiting client to JobFinished if and only if each task it waits for has its exit in the log, or its connection is closed or still read. |
| NoDeadEnd.StepKeepsGood | crates/coordinator/src/main.rs:228-308 | Every honest step keeps the invariant those continuations rest on. |
| SampleRun.EarlyKillRevivesRow | crates/worker/src/main.rs:157-168 | A whole run of the system in which a kill fails before the task starts, the row is failed, and then running. |
| LateKills.EarlyKillLeavesTerminal | crates/coordinator/src/main.rs:752-780 | The report of a failed kill followed by the start: the row is failed and then running again. |
| LostNodes.LostNodeEndsItsTasks | crates/coordinator/src/main.rs:782-819 | Losing a node removes it and ends exactly the tasks it was running, each with one failed row and one exit, whatever the iteration order; everything else is left alone. |
| LostNodes.LostNodeTells | crates/coordinator/src/main.rs:793-817 | Losing a node stores one line about each of its tasks and broadcasts that line and then the task's failed exit, at one time, task by task in the order walked. |
| Coordinator.AppState.HandleMessage | crates/coordinator/src/main.rs:263-302 | The in-place handler leaves exactly the state that its sections leave when run to the end. A log line is stored behind the others and broadcast, and no other message stores one; starts, exits and errors change row, index and events as stated message by message. |
| Coordinator.AppState.RecordWorkerErrorExit | crates/coordinator/src/main.rs:752-780 | With the error event after it, exactly the sections of an error message. |
| Coordinator.AppState.MarkNodeLost | crates/coordinator/src/main.rs:782-819 | The loop over the lost tasks does what the sections do, for the order it walked the map in and with a clock reading for each task. |
| Coordinator.AppState.KillJob | crates/coordinator/src/main.rs:402-430 | The nested iteration lists every target of the job exactly once, each with its node's connection. |
| Coordinator.AppState.CreateLease | crates/coordinator/src/main.rs:432-499 | A lease is stored exactly as it is granted, with the exclusiveness and the nodes of the request, if and only if the nodes are nonempty, all connected and in no exclusive overlap; otherwise nothing is stored, and the refusal names a reason that holds, each reason if and only if it is the first that does. |
| Coordinator.AppState.ReleaseLease | crates/coordinator/src/main.rs:520-545 | Removes that lease and no other and tells whether it was there. |
| Coordinator.AppState.RunProcess | crates/coordinator/src/main.rs:573-677 | Each refusal occurs if and only if its reason holds and changes nothing. Otherwise the nodes are those named, else those of the lease, else all connected ones; there is one assignment for each connected position in order and one error for each other position in order, and each goes out on its node's connection with the command, directory, timeout and variables of the request, created at its own clock reading. |
| Coordinator.AppState.PlaceTasks | crates/coordinator/src/main.rs:628-666 | The dispatch loop over index, store and vectors equals the placement function, with a clock reading for each task. |
| CoordinatorCore.PlaceAligned | crates/coordinator/src/main.rs:628-666 | Assignments and dispatches agree index by index: the i-th fresh id at the i-th connected position, sent on that node's connection; every other position is one error, in order. |
| CoordinatorCore.DispatchAccounting | crates/coordinator/src/main.rs:628-666 | For any selected list, with duplicates, assignments and errors partition it, and the running total and the queued rows both grow by exactly the number of assignments. |
| CoordinatorCore.PlacedRow | crates/jobstore/src/lib.rs:100-126 | Each assignment's row is queued at its node under its job, created at the clock reading of its own task. |
| CoordinatorCore.PlaceIndex | crates/coordinator/src/main.rs:660-664 | The index gains exactly the assignments, at their nodes and under the job. |
| CoordinatorCore.PlaceRows | crates/jobstore/src/lib.rs:100-126 | The table gains rows for exactly the ids drawn; no other row changes. |
| Leases.LeaseExclusion | crates/coordinator/src/main.rs:437-492 | In every state of every execution no lease is empty and two leases that share a node are both non-exclusive. |
| Leases.ExclusiveCapacity | crates/coordinator/src/main.rs:468-483 | In every state of every execution the node counts of the exclusive leases add up to the size of their union. |
| Leases.LeaseHeldIff | crates/coordinator/src/main.rs:483-545 | In every execution a lease is there exactly from the step that grants it until the step that releases it. |
| Leases.HeldLeaseIsAsked | crates/coordinator/src/main.rs:483-491 | As long as it is held, a lease has the nodes, the GPUs and the exclusiveness its request asked for. |
| Leases.ExclusiveRequestHolds | crates/coordinator/src/main.rs:467-491 | In every execution, from the step that grants an exclusive request until its release no other lease holds a node it asked for. |
| Leases.GrantedIff | crates/coordinator/src/main.rs:437-491 | In every execution a request is granted if and only if it comes to some nodes, all connected, and no lease that is held shares a node with it where either request is exclusive. |
| Leases.UnnamedLeaseTakesConnected | crates/coordinator/src/main.rs:438-455 | A lease that names no nodes takes as many different connected nodes as asked, at least one, as far as there are any; none only when none is connected. |
| Leases.SelectionInsideIff | crates/coordinator/src/main.rs:597-626 | A selection under a lease stays inside it if and only if the lease is nonempty or nothing is connected. |
| Leases.LeasedRunsStayInside | crates/coordinator/src/main.rs:597-626 | In every execution, every task placed for a run that names a lease is on a node of that lease. |
| Requests.DispatchFollowsRequest | crates/coordinator/src/main.rs:590-666 | In every execution a dispatch goes to the nodes that the request names, else to those of its lease, else once to each connected node: one assignment for each connected position up to where it is left, as asked for. |
| Requests.WorkersRunRequests | crates/coordinator/src/main.rs:640-693 | In every execution, whatever workers send, each task a worker holds or runs was asked for by a dispatched request, for that worker's node, with exactly its command, directory, timeout and variables, the node's own before the run's; it runs only if the policy allows it. |
| Requests.OnlyWaitersWait | crates/coordinator/src/main.rs:695-697 | In every execution a client is kept waiting, or told that its job has finished, only if its request asked to wait; one that asked is kept waiting once its tasks are sent out. |
| CoordinatorCore.PlacingAsRequested | crates/coordinator/src/main.rs:628-666 | The placement function does what was asked for at the connected positions and reports the others, told without it. |
| WaitLoop.Wait | crates/coordinator/src/main.rs:699-749 | On any event stream the loop stops at the shortest prefix with an exit of every assignment, collects the first exit of each assigned task once, reports success iff all first exits succeeded, and answers exactly the events that are due, each once and in order: every error, and of an assigned task everything up to its first exit. |
| WaitLoop.FirstExitIff | crates/coordinator/src/main.rs:699-737 | The first exit of a task is the one that no other exit of it stands before. |
| Subscriptions.ClientIsToldWhatIsDue | crates/coordinator/src/main.rs:588-749 | In every execution a waiting client has been sent exactly what is due to it of the events broadcast since it subscribed, as far as it has read; it waits for exactly the tasks without an exit there, and is told of success if and only if all first exits there succeeded. |
| JobStore.StoreRowLaws | crates/jobstore/src/lib.rs:100-204 | After any records in any order: a task has a row iff something was recorded about it, created at its first record's time; running implies a start time, finished an exit time. |
| JobStore.CreationTimeIsFixed | crates/jobstore/src/lib.rs:100-147 | No later record moves a creation time. |
| JobStore.StatusIsLastRecorded | crates/jobstore/src/lib.rs:100-204 | After any records in any order the last one about a task says its status; a dispatch its job and node. |
| JobStore.StartIsLastRecorded | crates/jobstore/src/lib.rs:128-147 | The start time is that of the last start, and there is none without one. |
| JobStore.ExitIsLastRecorded | crates/jobstore/src/lib.rs:170-204 | Exit time and exit code are those of the last exit, and there are none without one. |
| JobStore.PlaceIsRecorded | crates/jobstore/src/lib.rs:100-204 | A row stays at the job and node of the last dispatch, without one at those of its first record. |
| JobStore.SummaryStatusIsJobStatus | crates/jobstore/src/lib.rs:306-327 | The folded status of a listing is the job's status read off the table. |
| JobStore.FirstCreatedIsMinimum | crates/jobstore/src/lib.rs:311-311 | A job is reported created at the earliest creation time of its tasks, absent only when none has one. |
| JobStore.LastTouchedIsMaximum | crates/jobstore/src/lib.rs:306-327 | A job is reported updated at the latest of all times of its tasks. |
| JobStore.ListedByCreation | crates/jobstore/src/lib.rs:272-303 | In every table that calls have built a job's tasks are listed by creation time, equal times by task id. |
| JobStore.SortKeyIsLastTouchedIff | crates/jobstore/src/lib.rs:206-227 | The column jobs are ordered by equals the reported update time if and only if no start or creation time is later than every row's last stage. |
| JobStore.TailIsSuffix | crates/jobstore/src/lib.rs:239-270 | The tail query returns the job's last n rows in insertion order. |
| JobStore.TailLogsAreLast | crates/jobstore/src/lib.rs:239-270 | The tail query returns rows of the job asked for, in the order stored; rows of that job are left out only when there are more than n, and then only ones before all of those. |
| JobStore.SmallerTailIsSuffix | crates/jobstore/src/lib.rs:239-270 | A smaller tail is a suffix of a larger one. |
| JobStore.SqliteJobStore.RecordTaskDispatched | crates/jobstore/src/lib.rs:100-126 | The upsert of a dispatch, creation time written once. |
| JobStore.SqliteJobStore.RecordTaskStarted | crates/jobstore/src/lib.rs:128-147 | The upsert of a start, creation time written once. |
| JobStore.SqliteJobStore.RecordTaskExited | crates/jobstore/src/lib.rs:170-204 | UPDATE and, when it touched nothing, INSERT come to one upsert. |
| JobStore.SqliteJobStore.ListTasksForJob | crates/jobstore/src/lib.rs:272-303 | Every row of the job once, by time and then task id. |
| JobStore.SqliteJobStore.GetJob | crates/jobstore/src/lib.rs:229-237 | None iff the job has no row; else its rows in order, the job's status, its earliest creation and its latest time. |
| JobStore.SqliteJobStore.ListJobs | crates/jobstore/src/lib.rs:206-227 | At most `limit` different jobs, all of them when fewer, each reported faithfully; no job left out is newer than a listed one and the list is newest first, by the query's column for every table and by the reported update time when rows are chronological. |
| Worker.ExecutorOrder | crates/executor/src/lib.rs:89-140 | However the two log readers and the wait task interleave after the start, a task's events are its start, then lines and exactly one exit. |
| Worker.LocalExecutor.Finish | crates/executor/src/lib.rs:168-199 | The wait task sends one exit, after a line about the timeout if that came first; then the exit is a failure without a code. |
| Worker.StartTask | crates/worker/src/main.rs:179-231 | One verdict, complete; a start iff the policy allows and the spawn succeeds; then every executor event is passed on in order. |
| Worker.TableIsLastGiven | crates/executor/src/lib.rs:89-140 | The process table knows exactly the tasks that began with a process id and have not ended since. |
| Worker.LocalExecutor.KillTask | crates/worker/src/main.rs:157-168 | Silent iff a known process was signalled; else one error for the task. |
| Policy.DenyingMoreAllowsNoMore | crates/policy/src/lib.rs:110-137 | Extending the deny list never turns Deny into Allow. |
| Policy.AllowedIff | crates/policy/src/lib.rs:111-147 | A command given by path is allowed if and only if no deny pattern is its text or its file name and, under deny-all, some allow pattern is. |
| Policy.AuthorizeIff | crates/policy/src/lib.rs:111-147 | Any command whatever is allowed if and only if no deny pattern is the command or its last component and, under deny-all, some allow pattern is. |
| Policy.BareAllowedIff | crates/policy/src/lib.rs:118-141 | A command given without a path is allowed if and only if its name is not denied and, under deny-all, is allowed. |
| Policy.NoCommandAllowedIff | crates/policy/src/lib.rs:112-123 | An empty argument vector is decided as the empty command, which only an empty pattern is about. |
| Policy.FileNameIff | crates/policy/src/lib.rs:139-147 | The file name of a path is what stands behind a slash or at the start and has nothing but slashes and "." pieces behind it, unless it is "..". |
| Policy.DenyCoversEveryPath | crates/policy/src/lib.rs:133-147 | Denying a plain name denies the bare command and every path ending in it, in both modes and whatever is allowed. |
| ShellPrinter.ShellRoundTrip | crates/cli/src/main.rs:974-976 | A shell reads the joined quotes back as exactly the arguments, empty ones and quotes included, if and only if none holds a NUL. |
| ShellPrinter.QuoteReads | crates/runtime/src/main.rs:389-391 | A quoted value adds exactly the value to the word being read, in any context. |
| ShellPrinter.ShellCommandReads | crates/runtime/src/main.rs:377-387 | The printed line reads back as the command, appending output to the log path and sending errors after it. |
| Torchrun.TorchrunRequestParts | crates/cli/src/main.rs:928-959 | The loop yields the script and, for every listed node, exactly the five variables of its last position, each number read back from its text. |
| Torchrun.ScriptMeaning | crates/cli/src/main.rs:935-946 | Under the merged environment of a node the script runs exactly torchrun with the number of nodes, that node's rank, the address and port, and the user's arguments unchanged, if and only if no string holds a NUL. |
| Torchrun.TorchrunArguments | crates/cli/src/main.rs:935-946 | Read back, these arguments are the number of nodes, the processes on each, the rank, the address, the port and the user's own. |
| Torchrun.RanksNumberNodesIff | crates/cli/src/main.rs:947-957 | The ranks number the positions of the node list if and only if no node is listed twice. |
| Torchrun.DispatchedRanks | crates/coordinator/src/main.rs:640-654 | Every task dispatched for such a request runs torchrun with the rank of its own node's position. |
| Torchrun.DispatchedRanksDiffer | crates/cli/src/main.rs:947-957 | Two tasks of one such dispatch start torchrun with different rank arguments. |
| Text.JoinedSearchIff | crates/coordinator/src/main.rs:859-865 | Searching the joined text agrees with searching line by line, for all lists of lines, exactly for nonempty patterns without a newline. |
| Diagnosis.RecentErrors | crates/coordinator/src/main.rs:835-857 | The reverse scan with its cut-off returns the last twenty error lines in original order, told by their positions: lines from stderr or the system, or that hold one of the patterns in any case. |
| Diagnosis.IsErrorIff | crates/coordinator/src/main.rs:835-851 | A line is an error if and only if it came from stderr or the system or holds one of the twelve patterns in any case. |
| Text.LowerSearchIff | crates/coordinator/src/main.rs:836-837 | Searching the lowered text for a pattern without capitals finds exactly its occurrences in any case. |
| Worker.TimeoutIsDiagnosed | crates/executor/src/lib.rs:168-199 | A window with the worker's timeout line is diagnosed as a timeout and not as a network problem. |
| Diagnosis.BuildJobDiagnosis | crates/coordinator/src/main.rs:821-918 | The hints are exactly those some single line or the task states call for, in order, never none. |
| Diagnosis.DiagnoseJob | crates/coordinator/src/main.rs:547-571 | The same over the last n stored rows of that job, told by their positions; none if and only if the job has no row. |
| Diagnosis.WiderWindowKeepsErrors | crates/coordinator/src/main.rs:562-565 | Errors found in a smaller window are the last ones found in a larger one. |
| LogReader.ReadLog | crates/executor/src/lib.rs:234-252 | Emits every line with the wrapped 64-bit running sum as its offset. |
| LogReader.OffsetIsPositionIff | crates/executor/src/lib.rs:234-252 | A line's offset is its byte position if and only if no earlier line ended in CR LF; then the stream holds the line there. |
| LogReader.OffsetsIncrease | crates/executor/src/lib.rs:234-252 | Offsets strictly increase on streams shorter than 2^64 bytes. |
| LogReader.LinesRebuildIff | crates/executor/src/lib.rs:234-252 | The lines with a newline after each rebuild the stream up to a final newline if and only if no line ended in CR LF. |
| Auth.TokenMatches | crates/auth/src/lib.rs:157-167 | Accumulating over the longer length returns true iff the byte strings are equal. |

## Left out

* WebSocket, TCP, tokio scheduling and JSON: a connection is a FIFO queue each way and a message is a value. Node
  information, labels and `last_seen` are not kept, so a heartbeat changes nothing.
* SQLite itself and its failures: tables are a map and a sequence, calls succeed, LIMIT is a natural number. Times are
  ordered integers instead of RFC 3339 text. Among jobs with equal keys `list_jobs` may pick any order, as the query
  does.
* The broadcast buffer of 1024 entries: a client that lags, goes away or cannot dispatch stops (`Stop`), at any time.
* Coordinator restart: an execution starts with an empty memory and a table without unfinished rows.
* Real processes, signals, timeouts and process groups: a process exits at any time with any code; a kill succeeds or
  fails at any time. The timeout line is one of the log lines a task may produce.
* `ListLeases`, `ListNodes`, summaries and other replies that only copy fields; the texts of hints and of the diagnosis
  summary. A hint is a constructor.
* Invalid UTF-8 in a process's output, which ends the log reader.
* Of the shell: everything but the quoting, blanks, parameters in double quotes and the two redirections that the
  printed lines use; a line with anything else reads as nothing. The profile a login shell reads first is not modelled.
* The HTTP upgrade, header parsing, command-line parsing, printing, polling, tmux, install scripts, reconnect backoff
  and the sandbox backend.
- Coordinator.AppState.RunProcess: draws its task ids and clock readings from lists long enough for any selection,
  because random ids and the clock are arguments here.
- Cluster.DoDispatch: the section that places a run's tasks is one step although it calls the store while it holds the
  state lock, because those rows belong to tasks nobody else knows yet.
