# shome: the cluster's protocols and algorithms, modelled and proved

shome joins home computers into a cluster: a controller keeps the job records, agents on
the machines run the jobs, and everything between them goes through heartbeats that the
agents send. This project models the parts of it that have to be right under every
interleaving, and the self-contained algorithms beside them, and proves what they promise.

**Jobs** (`protocol`, `controller`, `agent`, `cluster`). The controller's store, registry
and action queues, and an agent's `run`, `done` and `finished`, are each modelled twice: as
functions on a value, and as a class whose methods update the fields as the source does
and are proved to do what the functions say. `cluster.dfy` puts them into a transition
system. One heartbeat exchange is three steps -- the agent's snapshot, the controller's
handling, the delivery of the reply -- with a loss possible before and after the handling,
and the actions of a reply are carried out one by one. A scheduling pass reads the queue,
decides, and marks its jobs in separate steps; a sweep marks machines down, drops their
queues, lists the lost jobs and writes them off one by one; a cancellation looks a job up
and writes in two; and the handling of a heartbeat may have read a job's record long before
it writes it. So each may act on what has changed since. In between, jobs are requeued and
end; machines are drained, removed and fall silent; agents and the controller restart. Histories (`lost`, `launches`, `consumed`, `cleanups`, `requeues`) are kept beside
the state and never read by it. `coverage`, `atmostonce`, `results` and `reclaiming` prove
what holds of every run, and `mishaps` gives whole runs in which something goes wrong.

**Files** (`paths`, `relay`, `fileagent`, `relayworld`). A copy or move between machines
goes in two hops through the controller, driven by the same heartbeats; an upload is let in
and ends in two steps, with anything between them. `moves` proves that
a move never loses data, `leftovers` exactly when that is so -- restarts of the controller
included -- after `movesafety` has shown the ordinary course of a move; and `news` that
stale reports do not erase what the controller learned by itself.

**Scheduling** (`admission`, `ceilings`, `queuedepth`, `dependencies`, `prerequisites`,
`fairshare`, `standings`, `priority`). Admission under account and cluster limits, the
depth of the queue, job dependencies, and fair-share priority, with floats as reals and
powers of two as a function of which only the laws of exponentials are used.

**Stand-alone pieces** (`distance`, `arrays`, `tokenizer`, `names`, `naming`, `streams`).
The edit distance behind "did you mean", array specifications, the two command-line
splitters, machine labels, and the channel that carries a window's size to a job.

`text`, `lists` and `sorting` are helpers. Every lemma switches Dafny's automatic induction
off: an induction is written out where there is one.

## What the model shows to be otherwise

Where the code does not keep what its comments or its design say, the model follows the
code, a lemma gives the input, and the property is stated with its exact condition.

- A record that is over can change again, because no write looks at the record it changes. A
  scheduling pass starts a job that was cancelled after it read the queue
  (`CancelledIsStarted`; exactly then, `MarkedLateIff`); a cancellation is written over a
  result that came after its look (`FinishedIsCancelled`); a result over a cancellation that
  came while it was handled (`CancelledIsCompleted`); and so are reclaiming and giving up.
  `RecordHistory` and `OnlyOwnResultCorrects` hold exactly where no write comes late. With a
  refused report, or a job to be re-run, such a write even puts a cancelled job back in the
  queue (`CancelledIsRequeued`; exactly then, `OverGoesBackIff`).
- A result can be lost. The handler of a report acknowledges it as that of an unknown job
  when looking the job up fails for any reason, and the agent then forgets it
  (`ResultIsLost`; exactly then, `NoResultLost`). In the same way a job is cancelled as one
  that can never run because reading a prerequisite failed once (`FailedReadCancels`;
  exactly when, `WronglyNeverIff`).
- A move can lose a file in three ways in which nothing fails. The guard against moving
  a file onto itself compares the paths as typed, so `f` moved to `./f` is accepted and
  removed; the upload handler cuts a file off at 32 GiB without an error, after which the
  source is removed; and transfer numbers start again from one with the controller, so a
  report, an upload or a download left over from before is taken for the new move's own
  (`RestartLosesMove`). `MoveIsSafeIff` says exactly which leftovers do that, and that
  these are all the ways, on disks on which different cleaned paths are different files.
- A job written off because its machine did not claim it can still start: the expiry sweep
  passes over a drained machine, and its queued launch goes out with the reply of the very
  heartbeat that writes the job off (`ReclaimedMayStartIff`, `DrainHidesFromSweep`). So it
  does from a machine that checks in when the sweep has marked it down and not yet dropped
  its queue (`SweepLosesRace`), and from one removed while a pass was giving it the job.
- An admin's drain does not survive an owner who takes the machine back and releases it,
  though the comment says that it stays; nor an owner who only works, if the admin's own
  reason begins with `owner: ` (`AdminDrainLiftedIff`, `HolidayDrainIsLifted`).
- A job cancelled because a prerequisite failed may have been cancelled wrongly: a failure
  written for a lost node is replaced by the node's own result (`NeverUndoneIff`,
  `CorrectableIff`), and a late write replaces any.
- A label may be given that a departed machine's stanza already goes by, and then does not
  resolve to its machine (`GrantedLabelResolvesIff`, `DepartedNameIsGranted`); that stanza
  even hides that another machine has the label (`LabelGrantedTwice`). And an identity
  typed in another case resolves only if its machine has a stanza (`OtherCaseResolvesIff`),
  though the comment promises it for every identity.
- A job whose account's books cannot be read starts uncounted, whatever the limits, and an
  unread cluster counts as empty: `RoundKeepsAccountIff` and `RoundKeepsClusterIff` say
  when a round keeps its ceilings for every store and all limits.
- The depth of the queue is checked at submission only. Submissions that overlap, a service
  that gets its next job, and a job that is over and is asked for again can each pass the
  limit, exactly when there is no room (`DepthOverRunsIff`, `OverlapPassesDepth`,
  `ServicePassesDepth`).
- A transfer that fails while its source uploads is staged again when the upload ends, with
  nothing for the destination to fetch (`FailedIsStaged`; `RecordsForwardOverRuns` and
  `BlobsOverRuns` say exactly then).
- A negative weight for age, which nothing refuses, reverses the submission order of one
  user's equal jobs (`SubmissionOrderIff`).
- A storage report that does not say when its walk began is treated as if it had begun in
  1970: the branch meant for it tests for the zero time, which a time made from
  milliseconds never is. So it replaces a listing only if nothing was noted there since the
  controller started (`UntimedReportIff`).

## Model

| member | source | states |
|---|---|---|
| Control.Controller.Schedule | internal/ctl/controller.go:480-505 | the placement loop marks each decided job RUNNING on its machine and queues its launch there, a failed store write leaving job and queue alone |
| Control.Controller.HandleHeartbeat | internal/ctl/controller.go:658-791 | a whole heartbeat: a removed machine is told so; otherwise owner's drain, registry, reports as the store serves each, reclaiming, and the reply takes the queue; every decision on a job is made on the record that was read |
| Control.Controller.ReclaimUnclaimed | internal/ctl/controller.go:819-873 | exactly the jobs found running past their grace that the heartbeat does not name are failed or requeued |
| Control.Controller.ExpireNodes | internal/ctl/controller.go:244-276 | silent machines go down, lose their queues, and their jobs are given up after the long grace |
| Control.Controller.GiveUpOnLostJobs | internal/store/nodes.go:257-303 | the running jobs of machines that are down past the long grace are listed, then failed or requeued |
| Agents.Agent.AckDone | internal/agent/agent.go:935-952 | exactly the acknowledged reports leave `done`; the rest stay in their order |
| Agents.Agent.Statuses | internal/agent/agent.go:810-824 | everything running, in some order, then every unacknowledged report |
| Agents.Agent.ClaimedJobs | internal/agent/agent.go:827-838 | the claims are exactly what runs or waits for an acknowledgement |
| Agents.Agent.TakeReply | internal/agent/client.go:322-356 | what a reply's acknowledgements do, and that an unknown machine stops |
| Agents.Agent.CarryOut | internal/agent/client.go:362-441 | a reply's actions in order, refusals and failures reported, until a stop |
| Coverage.CoverageOverRuns | internal/ctl/controller.go:498-503 | in every run a job recorded RUNNING on a machine has its launch queued or under way, or is run or remembered by the agent, or its loss is on record |
| Coverage.RecordsMatchMachine | internal/ctl/controller.go:819-873 | after a due heartbeat a job that was found running past its grace is RUNNING there if and only if it still was and the machine says that it runs, so a lost job stops being RUNNING; one not found so, and not named, is left alone |
| Coverage.TerminalLands | internal/ctl/controller.go:693-775 | a terminal report that the store accepts ends the record's running state, whatever else the heartbeat carries, unless and only unless the job was over when it was looked up, was started again since, and is reported once |
| Coverage.ReclaimSparesHeld | internal/ctl/controller.go:804-873 | a job the agent runs or remembers is never failed or requeued by reclaiming, however stale the heartbeat |
| AtMostOnce.SeenOverRuns | internal/ctl/controller.go:701-774 | in every run, what the handler of a heartbeat has read of a never-requeued job of that machine is still its record when it writes, but for a cancellation or a write-off since; and a machine whose job was found waiting has had nothing of it |
| AtMostOnce.RecordHistory | internal/store/store.go:296-316 | over any stretch of any run in which a job does not go back to the queue, every step leaves its record or takes it strictly further along Pending, Running, written off, over, if and only if no write of it comes late -- a marking, a cancellation, a write-off, a report or a reclaiming that is based on what the record was before -- and then the whole stretch does |
| AtMostOnce.StartedAtMostOnce | internal/ctl/controller.go:483-505 | a never-requeued job is started at most once over all agents, and only its own machine ever knows of it |
| AtMostOnce.ScratchAccounting | internal/agent/agent.go:877-894 | scratch is held exactly while a job runs or its started result awaits the acknowledgement; it is removed at most once per start, never under a running job, and not kept after the acknowledgement |
| AtMostOnce.OnlyOwnResultCorrects | internal/ctl/controller.go:707-725 | when a record that is over changes without going back to the queue, it becomes the result of the machine that had taken the job up and was written off, if and only if the write does not come late |
| AtMostOnce.OverGoesBackIff | internal/ctl/controller.go:727-737 | in every run a job that is over goes back to the queue if and only if a user asks for it, or it was not over when a sweep listed it or a heartbeat's handler read it, and it is re-run as lost or as refused |
| AtMostOnce.MarkedLateIff | internal/ctl/controller.go:374-498 | a decision is carried out on a job that no longer waits if and only if the job was cancelled between its selection and its marking |
| Mishaps.CancelledIsStarted | internal/store/store.go:297-305 | a whole run in which a job cancelled during a scheduling pass is marked as running and its launch queued |
| Mishaps.FinishedIsCancelled | internal/ctl/controller.go:987-998 | a whole run in which a recorded success is overwritten by a cancellation that had looked the job up before |
| Mishaps.CancelledIsCompleted | internal/ctl/controller.go:701-774 | a whole run in which a job cancelled while its result is handled is recorded as completed |
| Mishaps.CancelledIsRequeued | internal/ctl/controller.go:727-737 | a whole run in which a job cancelled while its machine's refusal is handled goes back to the queue |
| Results.OnlyAcksDrop | internal/agent/agent.go:935-952 | short of a restart, only a delivered acknowledgement drops a report |
| Results.NoResultLost | internal/agent/client.go:302-356 | a terminal report leaves an agent that does not restart only after an exchange that acknowledged its job; that exchange left the job over, found it so, requeued it as refused, or did not know it, if and only if it is not one in which the job was not over, could not be looked up, and had no report recorded |
| Mishaps.ResultIsLost | internal/ctl/controller.go:701-705 | a whole run in which a result is acknowledged after a failed lookup: the job stays recorded as running and nobody knows its result |
| Reclaiming.SweepSweeps | internal/store/nodes.go:189-228 | once a sweep has dropped the queues of the machines it marked down, every registered machine that is not drained is down or was heard from within the timeout |
| Reclaiming.SweptHasNoStaleLaunch | internal/ctl/controller.go:244-265 | on a swept machine, its queue dropped, no launch is queued of a job older than the claim grace |
| Reclaiming.ReclaimedMayStartIff | internal/ctl/controller.go:779-784 | a written-off job has a continuation that starts it if and only if its launch was queued ahead of any stop and the agent is there |
| Reclaiming.ReclaimedNeverStartsWhenSwept | internal/ctl/controller.go:793-873 | a job written off on a swept machine, its queue dropped, is never started afterwards |
| Reclaiming.DrainHidesFromSweep | internal/store/nodes.go:189-228 | a whole run in which a drained, silent machine is swept and its written-off job starts anyway |
| Reclaiming.SweepLosesRace | internal/ctl/controller.go:244-265 | a whole run in which a machine checks in between being marked down and losing its queue, and its written-off job starts |
| Reclaiming.AdminDrainLiftedIff | internal/ctl/controller.go:671-683 | what any sequence of heartbeats makes of an admin's drain: it is lifted if and only if the owner's last word lets the machine work and either the owner had taken it back before or the admin's reason begins as an owner's does |
| Reclaiming.HolidayDrainIsLifted | internal/ctl/api.go:709-716 | an admin's drain whose reason happens to begin so is lifted by an owner who never took the machine back |
| Paths.Resolve | internal/userfs/userfs.go:52-66 | a resolved file is strictly inside the account's own directory |
| Paths.DottedNamesSame | internal/userfs/userfs.go:52-66 | a dot in front spells a path differently and names the same file |
| Relay.Controller.ApplyTransferResults | internal/ctl/transfer.go:288-336 | outcomes are applied in order |
| Relay.Controller.ApplyStorageReport | internal/ctl/transfer.go:399-451 | unnamed accounts are pruned, and listings replaced unless noted since |
| RelayWorld.BlobsOverRuns | internal/ctl/transfer.go:203-246 | in every run a blob exists only while its transfer is staged, with exactly the recorded size; and, as long as no upload of the transfer ends after it was over, exactly while |
| RelayWorld.RecordsForwardOverRuns | internal/ctl/transfer.go:203-246 | over every stretch of every run each step takes a record only forward along sending, staged, failed, done, while it is kept, if and only if no upload of it ends after it was over |
| RelayWorld.FailedIsStaged | internal/ctl/transfer.go:222-225 | a transfer that fails while its source uploads is staged when the upload ends, and has no blob |
| Moves.MoveNeverLoses | internal/ctl/transfer.go:288-336 | in every run, restarts before it included, the bytes of a move between different files that no leftover misleads are at the source or the destination; the source's removal is queued at most once, and only when the destination has stored them and holds them |
| Leftovers.MoveIsSafeIff | internal/ctl/transfer.go:69-107 | an accepted move is safe if and only if its files differ, the relay takes the whole source, and nothing left over with its number is taken for its own: no old report of a stored file at any machine, no old upload of other bytes, no old download that may find its bytes |
| Leftovers.HarmlessIsSafe | internal/ctl/transfer.go:288-336 | a move that meets the condition is safe whatever is being handled, and whether or not the destination can store anything |
| Leftovers.RestartLosesMove | internal/ctl/transfer.go:291-317 | after a restart an old report of any machine makes the first move unsafe |
| MoveSafety.OrdinaryMove | internal/ctl/fs_api.go:205-219 | ten ordinary steps leave at the destination what the relay let through, and nothing at the source |
| MoveSafety.SelfMoveAccepted | internal/ctl/transfer.go:102-107 | a move of a file onto itself under another spelling is accepted |
| News.ReportedShelf | internal/ctl/transfer.go:399-451 | what a complete report leaves of every listing of every machine |
| News.StaleReportsEraseNothing | internal/ctl/transfer.go:459-476 | in every run a noted file leaves the index only through a walk begun no earlier than the note, a report without its account, its own removal, its machine being forgotten, or after a restart |
| News.NewsIsNoted | internal/ctl/transfer.go:302-317 | a stored file is listed with its size and noted at the time its outcome is applied |
| News.UntimedReportIff | internal/ctl/transfer.go:466-476 | in every run a report without a walk time replaces an account's listing if and only if nothing was noted there since the controller started |
| Admission.OverLimit | internal/ctl/qosenforce.go:285-303 | no limit is named exactly when all four, where finite, would still hold |
| Admission.RunningUsage | internal/ctl/qosenforce.go:151-167 | the sum over running jobs of one account, or of everybody for the empty name |
| Admission.AdmitForQoS | internal/ctl/qosenforce.go:176-254 | the pass with cached books gives each job the verdict defined on what was admitted before it, for every pattern of failing reads |
| Admission.PickedInOrder | internal/ctl/qosenforce.go:176-254 | what may start is exactly the admitted and the unchecked, in the queue's order |
| Ceilings.AccountFits | internal/ctl/qosenforce.go:169-175 | the jobs one pass admits fit their account's limits together, whichever reads fail |
| Ceilings.ClusterFits | internal/ctl/qosenforce.go:187-254 | they fit the cluster's limits if what the cluster runs could be read |
| Ceilings.AdmissionIsMaximal | internal/ctl/qosenforce.go:227-254 | no job held for a limit could be added to what is admitted in the end without breaking one |
| Ceilings.CeilingsOverRuns | internal/ctl/qosenforce.go:176-254 | in every run with fixed limits, what an account runs, with what is about to start, never exceeds its finite limits if none of its own jobs starts unchecked, nor the cluster's if none does and the cluster's usage is read; jobs may end, be cancelled or be requeued between admission and start |
| Ceilings.RoundKeepsAccountIff | internal/ctl/qosenforce.go:198-210 | a round keeps an account's ceilings for every store and all limits if and only if none of the account's jobs starts unchecked |
| Ceilings.RoundKeepsClusterIff | internal/ctl/qosenforce.go:187-195 | it keeps the cluster's if and only if no job starts unchecked and, unless nothing is queued, the cluster's usage is read |
| QueueDepth.ChecksHoldDepth | internal/ctl/qosenforce.go:102-141 | the check at submission holds the depth, arrays included, in runs in which submissions do not overlap and nothing else adds a job |
| QueueDepth.OverlapPassesDepth | internal/ctl/api.go:524-552 | two submissions that are checked before either is stored pass the limit |
| QueueDepth.ServicePassesDepth | internal/ctl/controller.go:344-390 | a service that gets its next job after its account has filled the place passes the limit |
| QueueDepth.DepthOverRunsIff | internal/ctl/qosenforce.go:106-141 | in every run queued and running jobs stay within a depth limit if and only if every job was added when there was room for it |
| QueueDepth.DepthStepIff | internal/ctl/controller.go:1017-1026 | one step, reviving a finished job among them, keeps the depth if and only if there is room for what it adds |
| Dependencies.ParseDependency | internal/ctl/dependency.go:30-65 | the loops compute the edge list defined clause by clause, or refuse |
| Dependencies.ParsePrint | internal/ctl/dependency.go:30-65 | parsing inverts printing for every list of clauses of 64-bit ids |
| Prerequisites.DepsSatisfied | internal/ctl/controller.go:937-972 | satisfied if and only if every edge is read and met; otherwise the answer names the first edge that is not, and why |
| Prerequisites.DepsSatisfiedEx | internal/ctl/controller.go:906-935 | never if and only if the expression is malformed, some edge is dead, or the job is not satisfied and reading an edge again fails |
| Prerequisites.FailedReadCancels | internal/ctl/controller.go:401-411 | a job that waits for a running one is declared never for one failed read, though it can still be satisfied |
| Prerequisites.WronglyNeverIff | internal/ctl/controller.go:915-919 | a job is declared never without being so exactly when no edge is dead, some edge is unmet or unread, and reading one again fails |
| Prerequisites.NeverIsSound | internal/ctl/controller.go:899-935 | a job declared never is satisfied in no later store in which nothing is corrected |
| Prerequisites.NeverIsExact | internal/ctl/controller.go:899-935 | a waiting job's edges can come to hold in some later store, corrections included, if and only if none is missing or over for good in the wrong way, none is to itself, and no job that may yet end either way must both succeed and fail |
| Prerequisites.NeverUndoneIff | internal/ctl/controller.go:707-725 | a verdict of never is undone in some later store if and only if every dead edge's job may yet come to another end -- where only failures may, it is an afterok -- and nothing else stands in the way |
| Prerequisites.CorrectableIff | internal/ctl/controller.go:707-725 | of the jobs that a report finds over, it changes the state of exactly those written off with their machine |
| FairShare.SharesOf | internal/fairshare/fairshare.go:185-193 | every account is entitled to something |
| FairShare.SharesFor | internal/fairshare/fairshare.go:253-297 | one standing per account with a row or with usage, in the order of names, each from the totals over all of them |
| FairShare.UsageFor | internal/ctl/priority.go:108-140 | one entry per account in the order of names, adding up to the decayed cost of its rows |
| StandingLaws.SharesAddUp | internal/fairshare/fairshare.go:278-297 | normalised shares add up to one, and so does normalised usage unless it is all zero |
| StandingLaws.MoreUseNeverHelps | internal/fairshare/fairshare.go:305-313 | raising one account's usage never raises its own factor nor lowers another's |
| StandingLaws.IdleTimeChangesNothing | internal/ctl/priority.go:117-135 | with the history over, time changes no standing but the raw usage, which fades by one common factor |
| Priority.Scorer.Prepare | internal/fairshare/fairshare.go:358-365 | the largest size of the round |
| Priority.Scorer.Order | internal/fairshare/fairshare.go:411-430 | a permutation of the round sorted by priority, submission and number, with every job's score |
| Priority.LessIsAnOrder | internal/fairshare/fairshare.go:419-428 | the comparison is a strict order, total on jobs with distinct ids |
| Priority.OrderIsDeterministic | internal/fairshare/fairshare.go:404-430 | the same jobs come out in the same order however they went in |
| Priority.WeightsAreRelative | internal/fairshare/fairshare.go:65-81 | scaling all weights by a positive constant changes no score |
| Priority.SubmissionOrderIff | internal/fairshare/fairshare.go:368-402 | one user's equal jobs compare in submission order if and only if the weight of age is not negative or they do not differ in age |
| Priority.SubmissionOrderKept | internal/fairshare/fairshare.go:404-430 | so they come out of the round in that order |
| Distance.EditDistance | internal/config/config.go:495-516 | two swapped rows compute the recursive distance |
| Distance.IsAMetric | internal/config/config.go:494-516 | zero only on equal texts, symmetric, the triangle inequality, and the bounds by length |
| Distance.LeastEdits | internal/config/config.go:494-516 | the distance is the least number of single-character edits that lead from one text to the other |
| Distance.Suggest | internal/config/config.go:161-173 | the first nearest field is suggested if and only if it is within four edits and has a name |
| Arrays.ParseArray | internal/ctl/directives.go:161-221 | the tasks are increasing, natural, at most ten thousand, and exactly those some part stands for; a refusal has one of the stated causes |
| Arrays.Expand | internal/ctl/directives.go:205-214 | the inner loop adds exactly the stepped range, each index once |
| Arrays.GoodSpan | internal/ctl/directives.go:186-202 | a part that parses has natural bounds in order and a positive step |
| Arrays.SpanAsWritten | internal/ctl/directives.go:178-202 | three numerals written lo-hi:step stand for that span |
| Tokenizer.Split | internal/loginnode/command.go:20-55 | the scan loop computes the splitting defined character by character |
| Tokenizer.SplitPrint | internal/loginnode/command.go:20-55 | every argument list survives printing in single quotes, an embedded one in double quotes, and splitting |
| Tokenizer.ShellsAgreeIff | cmd/shome-shell/main.go:138-176 | the two splitters agree on a line if and only if the first unquoted character either refuses is no bracket and no carriage return |
| Names.Cluster.Resolve | internal/clustercfg/clustercfg.go:88-101 | a name resolves to itself, or to any one stanza that matches, or is returned unchanged |
| Names.Cluster.Save | internal/clustercfg/clustercfg.go:180-191 | exactly the stanzas that say nothing are dropped |
| Names.Cluster.SetNodeName | internal/ctl/cluster_api.go:81-149 | a request is granted exactly under the stated rule, and then changes one stanza as asked |
| Naming.NamesResolve | internal/clustercfg/clustercfg.go:71-101 | in an unambiguous configuration every machine's name resolves to it in every order of trial |
| Naming.NamesResolveOverRuns | internal/ctl/cluster_api.go:81-149 | in every run of requests, arrivals and departures in which stanzas belong to machines and arrivals collide with no name, every machine's name resolves to it |
| Naming.GrantedLabelResolvesIff | internal/clustercfg/clustercfg.go:109-123 | a granted label resolves to its machine in every order of trial if and only if no other stanza that says something goes by it, as key or as label |
| Naming.LabelGrantedTwice | internal/ctl/cluster_api.go:113-131 | a label another machine has is granted when a departed machine's stanza has it as its key, and both are called the same |
| Naming.DepartedNameIsGranted | internal/ctl/controller.go:1064-1095 | a departed machine's name is granted as a label and resolves to the departed machine |
| Naming.OtherCaseResolvesIff | internal/clustercfg/clustercfg.go:81-101 | an identity typed in another case resolves if and only if its machine has a stanza |
| SizeChannel.VersionRisesIff | internal/ctl/stream.go:164-188 | the version rises exactly when the size changes |
| SizeChannel.AppliedAreASubsequence | internal/agent/interactive.go:170-222 | in every run the sizes applied are a subsequence of those set |
| SizeChannel.NoFinalSizeLost | internal/agent/interactive.go:170-222 | after the last change the next answered poll brings the node the final size |
| SizeChannel.EndsOnce | internal/ctl/stream.go:219-269 | for every interleaving `done` is closed at most once, and exactly once when the session is out of the registry and nobody still has to close it; the first finish's code stands while the session is registered, and one terminal and one node are attached at most |
| SizeChannel.ExitStays | internal/ctl/stream.go:219-248 | an exit code, once recorded, stays |

## Left out

- Gang jobs: the lifecycle model has single-node jobs only; the gang branches of cancelling and of node states do not keep its invariants.
- AtMostOnce.StartedAtMostOnce: says nothing of a job that went back to the queue, because reports carry no attempt number and a killed attempt's report can finish the next one.
- A cancelled job need not stop: its kill can be lost with a reply or dropped by the sweep, so no such theorem is stated.
- Coverage.CoverageOverRuns: marking a job and queueing its launch are one step, and so is a user's requeue. Handling a heartbeat reads job records at any time before, and does all else in one step. Requests of one agent do not overlap, and none is handled when its agent has restarted.
- Control.Controller.GiveUpOnLostJobs: the unreachable annotation on records, which nothing reads, is not kept, and the reason texts are an enumeration, so an agent's own text is taken not to contain the node-lost phrase.
- Peak memory, tokens, telemetry, the streaming of outputs, staging of inputs and results, and the status file do not appear.
- Store writes either happen or change nothing. A store read does not fail, except the lookups of a heartbeat's reports and of prerequisites, and the bookkeeping reads of admission.
- Control.Controller.HandleHeartbeat: the reads of the removed machines and of the registry do not fail, and a registry write that fails, which ends the request without a reply, is a lost request.
- Agents.Agent.CarryOut: a launch without a job description, which the controller never sends, is not modelled; the flush on a stop is the request that `Cluster.Acted` sends.
- The methods of the classes that have no row are single guarded updates, each proved to do what its function says.
- The planner is any choice of at most one decision per job among the jobs it was given; backfill and placement are not modelled.
- Moves.MoveNeverLoses: nobody else writes the two files, and the controller does not restart between the request and the end. Directories, recursive removal and file modes are not modelled: a file system is a map from cleaned paths to contents, written atomically.
- Leftovers.MoveIsSafeIff: the half that finds the loss is for a destination inside the account's storage, and not for the moment in which a failure or a removal reported under the move's number by one of its two machines is being handled; `HarmlessIsSafe` has neither restriction.
- Paths.Resolve: the account's directory itself, which the source resolves and which is no file, is nowhere here, and the directory a machine keeps accounts in is the root. On a disk with symbolic links between directories, or that does not tell letters by case, two cleaned paths can be one file; here they are two.
- RelayWorld.BlobsOverRuns: but for an upload by a machine, recording and blob change in one step; in the source a reader may see one without the other. The partial blob of an upload under way and blobs left by a controller that stopped are not modelled.
- RelayWorld.RecordsForwardOverRuns: an upload from outside the cluster, and the expiry of a transfer, are one step each.
- The registry check of the machine names in a transfer request, and a storage directory that cannot be made, only refuse requests and are left out; so are the progress of a listing of a very large account and its truncation.
- That transfers end, and that the index converges: outcomes and reports are handed over before the heartbeat that carries them succeeds.
- That an account's total storage stays within its limit: concurrent transfers are checked against the same figure.
- CheckSubmit's ceilings on what one job may ask for are one comparison each; only its queue-depth part is modelled.
- Held jobs, reasons shown to users, and the wording of every message are left out; a reason is the verdict it words.
- Arrays.ParseArray: integers are unbounded once parsed, so a range that ends within a step of the largest 64-bit number, on which the source's loop overflows, is expanded as if it did not.
- Ceilings.CeilingsOverRuns: a round reads the store at one moment, and the jobs it decides on are started one by one.
- Text.ToLower: folds the letters that a comparison with the three dependency words can see.
- Distance.EditDistance: characters stand for bytes.
- FairShare.UsageFor: the window of history is the caller's choice of rows, and the cache of standings is not modelled. Reals do not round, and durations do not saturate.
- Priority.Scorer.Order: stability of the sort is not needed, because no two jobs compare equal.
- Names.Cluster.SetNodeName: the configuration file, its cache and its hand editing are left out; case folding is any function that keeps the empty name apart.
- SizeChannel.EndsOnce: the pipes are left out, and with them the bytes; the wait of an unattached session is the step that forgets it.
- Prerequisites.NeverIsExact: a later store is one in which no job that is over was put back in the queue.
- Dependencies on one another: a later store lets every undecided job end either way, also where a cycle of dependencies would not.
- Choosing a coordination fabric and its rank plans, keeping services alive, owner policy, metrics, dashboards, the web console, ssh, TLS, joining, the sandbox and the platform back ends are not modelled.
