# Verification of Base to Base and the app framework's resolver

A Dafny model of the parts of this repository whose correctness spans many functions or many
steps, with proofs.

- **The run machine** (`Domain`, `Machine`, `Lifecycle`, `Transitions`, `Starting`, `Views`, `Effects`,
  `Review`, `Outcomes`, `Alarms`, `Attempts`, `Jobs`, `Telling`). Every transition of a patrol run, each giving a new state and a list of effects, and the
  views made of the state: the review's outcome, the check, the snapshot, the index row, the next
  alarm. The theorems are about every state reachable by any sequence of events.
- **The durable object around it** (`RunObject`, `CheckMirror`, `DurableRun`, `IndexMirror`). The state is
  stored together with the marks of the writes it owes; check syncs run one at a time, index writes do
  not; calls may be applied and heard, applied and unheard, or not applied; a reset may come at any moment.
- **Logging** (`EventLog`, `Batcher`). The forwarder numbers, batches and resends events; the object
  drops those it has. The two are joined into an end-to-end theorem.
- **Reconciliation** (`Reconcile`, `StartPr`, `Race`). What one reconcile does to a PR's runs, what a
  start does, and many of both racing.
- **The resolver** (`Resolver`). The Go framework's dependency resolution.
- **Smaller algorithms**. The trail name of a run (`RunNames`), the designs a PR owes (`ForLines`,
  `Covers`), the dashboard's merged log (`MergeLog`).

`Sets` counts finite sets. Code that changes things step by step is imperative here too: `RunDO`,
`Log`, `EventBatcher` and `PrRuns` are classes whose methods are proved against functions on the
value they hold, and the theorems over whole runs are about those functions. `RunDO` and
`EventBatcher` also carry, as ghost fields, the world around them and their own past, and their
`Valid()` gives the invariant of the whole run at every call.

Assumed throughout, as the code assumes it: the roster's role ids are distinct (`loadConfig` does not
check it); a minted nonce is new; a batch may hold at least one event; a rating has at least one trail
name; a report carries a verdict `parseVerdict` let through; GitHub's check run ids and the storage
revisions are new each time.

## Model

| member | source | states |
|---|---|---|
| Machine.MintNonces | basetobase/dispatch/src/run/machine.ts:101-102 | The loop that mints nonces leaves every other agent's nonce as it was and gives each listed agent a minted one (with `Jobs.MintedValues`). |
| Jobs.MintedValues | basetobase/dispatch/src/run/machine.ts:331-332 | Agents not retried keep their nonces; each one retried has one of those just minted. |
| Machine.Tick | basetobase/dispatch/src/run/machine.ts:242-262 | The tick's one pass over the agents, with its accumulating state, failures and log lines, ends as the specification of a tick does. |
| Lifecycle.TickFirstMeaning | basetobase/dispatch/src/run/machine.ts:242-262 | Though each turn works on the state the turns before left, an agent's fate depends on its own clocks alone; the tick acts iff some agent is due, and the failures it counts are exactly the agents past a limit that fails them. |
| Lifecycle.TickCloses | basetobase/dispatch/src/run/machine.ts:259-261 | A tick that fails nobody always leaves somebody out, so every tick that acts ends as closing the sweep would. |
| Lifecycle.AgentIdInjective | basetobase/dispatch/src/run/machine.ts:593-595 | No two roles share an agent id. |
| Lifecycle.SweptFacts | basetobase/dispatch/src/run/machine.ts:695-700 | A sweep closes iff nobody is out, and closing touches the sweep step, the status and the clock only. |
| Lifecycle.LandedSteps | basetobase/dispatch/src/run/machine.ts:407-420 | Landing leaves every step after the sweep settled and the sweep as it was. |
| Lifecycle.RetryableFacts | basetobase/dispatch/src/run/machine.ts:294-299 | A retry covers exactly the failed agents it targets, in an open run. |
| Lifecycle.StepKeepsInv | basetobase/dispatch/src/run/machine.ts:155-463 | Every transition keeps the lifecycle invariant. |
| Lifecycle.AlwaysInv | basetobase/dispatch/src/run/machine.ts:74-463 | Every reachable state satisfies it. |
| Starting.StartsExactly | basetobase/dispatch/src/run/machine.ts:84-100 | Exactly the roster entries that are enabled and share a panel with the change patrol it, in roster order, one patroller each, queued on the sweep with nothing heard, linked, said or found. |
| Starting.RolePatrols | basetobase/dispatch/src/run/machine.ts:84-88 | A role patrols iff the roster has an enabled entry for it with a panel of the change. |
| Starting.CreatedAs | basetobase/dispatch/src/run/machine.ts:101-138 | The run is on the hill, or swept at once iff nobody patrols; it is of the PR's head; each patroller has the nonce minted at its place and its roster entry's name. |
| Starting.CreatedSteps | basetobase/dispatch/src/run/machine.ts:82-138 | Its first two steps are done, its sweep begins as it is created and is done only where nobody patrols, the rest are to come; its goal is the title with any body under it. |
| Starting.CreateDispatches | basetobase/dispatch/src/run/machine.ts:140-152 | Creating a run dispatches every patroller, once each, in order, and after the index. |
| Starting.DispatchExactly | basetobase/dispatch/src/run/machine.ts:155-463 | An event dispatches exactly the patrollers it puts back on the queue, once each and after the index; only a retry does. |
| Starting.DispatchedEachAttempt | basetobase/dispatch/src/run/machine.ts:74-463 | Over any run each patroller is dispatched exactly once an attempt, and nobody else ever is. |
| Transitions.HeardExactly | basetobase/dispatch/src/run/machine.ts:155-230 | An event about a patroller moves the run iff the patroller is still awaited, a dispatch result finds it queued, and a batch has a new event; the patroller is then exactly what the event says, with the first job link kept. |
| Telling.SweepTold | basetobase/dispatch/src/run/machine.ts:788-806 | The report, failure or tick that closes the sweep, and no other, tells what it came to: the patrollers, the hazards the check then lists and the failures. |
| Transitions.StrangersUnheard | basetobase/dispatch/src/run/machine.ts:602-607 | An event about nobody of the run does nothing. |
| Transitions.TranscriptExactly | basetobase/dispatch/src/run/machine.ts:235-240 | A transcript counts once, whatever has become of the patroller, and changes nothing else. |
| Transitions.TickExactly | basetobase/dispatch/src/run/machine.ts:611-625 | A tick fails a patroller still out half an hour after its brief, half an hour after a dispatch without a brief, ten minutes after its start or retry without a dispatch, each for its own reason; calls one stalled after ten minutes of silence; and leaves everyone else. |
| Telling.TickTells | basetobase/dispatch/src/run/machine.ts:242-262 | A tick tells of exactly the patrollers it fails, each with its reason. |
| Transitions.RetryExactly | basetobase/dispatch/src/run/machine.ts:304-367 | A retry moves the run iff a failed patroller of an open run is its target. Exactly those get a fresh attempt, keep no job and no stall line told; every other keeps its attempt, nonce and job; the sweep reopens from when it began and no other step changes. |
| Telling.TickTellsStalls | basetobase/dispatch/src/run/machine.ts:685-693 | A tick tells of exactly the patrollers it calls stalled and has not told of in this attempt. |
| Telling.RetryTells | basetobase/dispatch/src/run/machine.ts:354-360 | A retry tells of exactly the patrollers it gives a fresh attempt, with the attempt's number. |
| Transitions.BypassExactly | basetobase/dispatch/src/run/machine.ts:372-404 | A bypass counts iff the run is open, was not bypassed and Granite Chief has found the design missing; it keeps its time and asks for a new check. |
| Transitions.AsideExactly | basetobase/dispatch/src/run/machine.ts:436-463 | A title or the check changes nothing else: the first check run created is kept, only an open run counts an ask for a repost, and a repost leaves the asks that came after it was begun. |
| Transitions.EndExactly | basetobase/dispatch/src/run/machine.ts:266-287 | A stop ends an open run and a merge any not landed. Exactly the patrollers still out are stopped, and the sweep if it is under way; the merge commit is the one named. |
| Transitions.LandSettles | basetobase/dispatch/src/run/machine.ts:407-420 | A merge skips the huddle, the summit and the deploy, each saying why, and marks the drop-in done with the first seven characters of the commit. |
| Transitions.LandedOnFirst | basetobase/dispatch/src/run/machine.ts:407-420 | A landed run holds the commit of the first merge it was told of. |
| Transitions.CurrentStepIs | basetobase/dispatch/src/runs/index.ts:191-197 | The current step is the first under way, else the last one reached, else the first. |
| Transitions.IndexShowsStep | basetobase/dispatch/src/runs/index.ts:191-197 | In every reachable state that is the sweep, and of a landed run the last step. |
| Attempts.EveryStepOnward | basetobase/dispatch/src/run/machine.ts:155-433 | Every transition takes every patroller's attempt onward: off the queue it stays off, its dispatch time, job link and transcript are written once, and an attempt that is over changes no more but for its transcript; the one attempt ever replaced is a failed one, and by a fresh attempt on the queue. |
| Attempts.AttemptsFinal | basetobase/dispatch/src/run/machine.ts:155-433 | Between any two states of a run, however far apart, an attempt is onward in the same way, and one that is clear, found hazards or was stopped has no other after it. |
| Attempts.OnlyFailedReplaced | basetobase/dispatch/src/run/machine.ts:294-349 | Every attempt a patroller has left behind, between any two states of a run, had failed at some moment between them. |
| Attempts.ClockMeaning | basetobase/dispatch/src/run/machine.ts:611-625 | When an agent is next due: ten minutes after a brief or a batch of events, but never past half an hour after the brief; half an hour after a dispatch; ten minutes after a retry. |
| Attempts.ClocksSet | basetobase/dispatch/src/run/machine.ts:155-230 | An event about an agent sets that agent's clock to just that, a report or a failure takes it away, and every other agent is left as it was. |
| Review.LifecycleAlways | basetobase/dispatch/src/run/machine.ts:74-463 | In every reachable state: on the hill iff the sweep step is active iff a patroller is still out; landed iff there is a merge commit iff Drop in is done; nonces exist for exactly the patrollers; the status `failed` never occurs. |
| Review.EndsStay | basetobase/dispatch/src/run/machine.ts:266-287 | Landed is for good, on the same merge; a stopped run can only land, and does when the PR merges. |
| Review.ReportsKept | basetobase/dispatch/src/run/machine.ts:205-230 | No transition takes back or changes a patroller's report. |
| Review.ReportsPermanent | basetobase/dispatch/src/run/machine.ts:205-230 | Once a patroller is clear or has hazards, its status, summary and hazards are the same in every later state. |
| Review.SuccessExact | basetobase/dispatch/src/run/machine.ts:490-542 | In every reachable state the check concludes success iff the sweep is done, somebody patrolled, and each patroller is clear, or, after a bypass, is Granite Chief with the missing design for its one hazard; and the check is in progress iff the run is on the hill. |
| Outcomes.OutcomeIff | basetobase/dispatch/src/run/machine.ts:529-542 | The review is pending until the sweep is done; then failed iff a patroller errored or was stopped, with hazards iff all reported and one does not pass, none iff nobody patrolled, clear iff somebody did and all pass. |
| Outcomes.ConclusionExact | basetobase/dispatch/src/run/machine.ts:490-526 | In every reachable state: in progress iff on the hill; failure iff the sweep is done and somebody does not pass; neutral iff it is done and nobody patrolled; success iff it is done and everybody passes; cancelled iff the run ended before it was done; never skipped. |
| Outcomes.WantsCheckIff | basetobase/dispatch/src/run/machine.ts:468-471 | A check sync writes nothing iff the run ended before its sweep was done and has no check run. |
| Outcomes.OpenExactly | basetobase/dispatch/src/run/machine.ts:714-718 | A patroller's hazards all count, but that a bypass takes away Granite Chief's first missing design and nothing else. |
| Outcomes.LinesAlways | basetobase/dispatch/src/run/machine.ts:768-778 | In every reachable state the check lists every hazard reported, in order and under its patroller's name; in a bypassed run, all but Granite Chief's first missing design. |
| Outcomes.ReportExactly | basetobase/dispatch/src/run/machine.ts:726-747 | The report counts the patrollers, those in with a verdict or a failure, those failed and the hazards listed, and gives each summary there is, in order. |
| Outcomes.FailureSays | basetobase/dispatch/src/run/machine.ts:755-766 | A failing check says how many hazards it lists, and names the first patroller that never reported, with what it left, iff there is one. |
| Outcomes.OthersSay | basetobase/dispatch/src/run/machine.ts:490-526 | Any other check is headed by its state, and a pass the bypass made says so. |
| Outcomes.NoteAlways | basetobase/dispatch/src/run/machine.ts:695-700 | In every reachable state the note of a done sweep is the report of the run as it then is, however it was bypassed, stopped or landed since. |
| Review.OneGraniteChief | basetobase/dispatch/src/run/machine.ts:707-712 | At most one patroller holds a hazard the owner can waive. |
| Review.BypassWaivesOne | basetobase/dispatch/src/run/machine.ts:714-722 | In a bypassed run the hazards reported are the open ones and exactly one more. |
| Review.BypassForGood | basetobase/dispatch/src/run/machine.ts:381-404 | After a bypass, in every later state, exactly one hazard more is reported than is open, the same Granite Chief still holds the waived one among the same hazards, and the bypass keeps its time. |
| Review.EndKeepsOutcome | basetobase/dispatch/src/run/machine.ts:266-287 | Stopping or landing leaves the review's outcome as it was, from every reachable state. |
| Review.OutcomeChanges | basetobase/dispatch/src/run/machine.ts:529-542 | An outcome once reached changes only by a retry, to pending, or by a bypass, from hazards to clear. |
| Review.BypassOutcome | basetobase/dispatch/src/run/machine.ts:381-404 | A bypass can only turn hazards into a pass. |
| Effects.CheckComplete | basetobase/dispatch/src/run/machine.ts:490-526 | A transition without a check effect leaves the whole check body unchanged. |
| Effects.WantsNoMore | basetobase/dispatch/src/run/machine.ts:465-471 | No transition makes a run that had no check to write want one, short of GitHub's own answer. |
| Effects.EndedStays | basetobase/dispatch/src/run/machine.ts:266-433 | An ended run's outcome is final, whatever event comes, and it can only go on to land; its check run changes by GitHub's own answer alone. |
| Effects.IndexComplete | basetobase/dispatch/src/runs/index.ts:31-56 | A transition without an index effect leaves every field of the run's row but its clock unchanged. |
| Effects.BroadcastComplete | basetobase/dispatch/src/run/machine.ts:551-575 | A transition without a broadcast leaves the snapshot viewers see unchanged. |
| Alarms.AlarmIff | basetobase/dispatch/src/run/machine.ts:545-549 | The next alarm is still to come iff no agent is due. |
| Alarms.TickExact | basetobase/dispatch/src/run/machine.ts:242-262 | Before the alarm a tick changes nothing; at it or after, it always changes an agent; afterwards the next alarm is absent or strictly later than now. |
| Alarms.AlarmSet | basetobase/dispatch/src/run/machine.ts:545-549 | A run on the hill always has a next alarm. |
| Alarms.TickSpends | basetobase/dispatch/src/run/machine.ts:678-693 | Each alarm spends some of a budget of two for each agent still out. |
| Alarms.AlarmsReachSwept | basetobase/dispatch/src/run/machine.ts:242-262 | From any reachable state on the hill, with no reports at all, two alarms an agent end the sweep. |
| Alarms.LateTickCloses | basetobase/dispatch/src/run/machine.ts:611-625 | A tick 1,800,000 ms after the latest clock closes the sweep at once. |
| Alarms.LateAlarmEnds | basetobase/dispatch/src/run/machine.ts:611-625 | The same over whole runs: whatever had happened by a time, an alarm half an hour later leaves the run off the hill. |
| Alarms.ClocksBounded | basetobase/dispatch/src/run/machine.ts:74-463 | A run holds no clock later than its latest event. |
| Jobs.NoncesKept | basetobase/dispatch/src/run/machine.ts:331-332 | Only a retry changes a nonce, and only a retry or a brief a job. |
| Jobs.RetiredApart | basetobase/dispatch/src/run/machine.ts:331-332 | A retry's new nonces are none of those ever replaced, the ones it replaces among them. |
| Jobs.JobsBelong | basetobase/dispatch/src/run/machine.ts:184-203 | In every run the jobs kept are exactly those briefed under an agent's current nonce, and no nonce once replaced is current again. |
| Jobs.StallsAtMost | basetobase/dispatch/src/run/machine.ts:685-693 | The stall lines told of an agent number at most its retries plus one. |
| Jobs.EndCancels | basetobase/dispatch/src/run/machine.ts:657-676 | Stopping a run on the hill, and landing any run, cancels exactly the started jobs of the agents still out. |
| Jobs.RetryCancels | basetobase/dispatch/src/run/machine.ts:304-367 | A retry cancels exactly the started jobs of the attempts it replaces, and leaves those agents with none. |
| DurableRun.RunDO.Step | basetobase/dispatch/src/run/do.ts:284-304 | A moved state is stored together with a mark, under a new revision, for the check write it owes; an unmoved one stores nothing. |
| DurableRun.RunDO.QueueCheck | basetobase/dispatch/src/run/do.ts:367-372 | The check effect puts one sync more in line. |
| DurableRun.RunDO.AbandonCommit | basetobase/dispatch/src/run/do.ts:307-310 | An effect that throws before the check effect ends the commit's claim on the check, and leaves its mark. |
| DurableRun.RunDO.RetryCheck | basetobase/dispatch/src/run/do.ts:355-362 | A retry queues a sync iff a write is owed that no one in this instance has in hand. |
| DurableRun.RunDO.Settle | basetobase/dispatch/src/run/do.ts:346-348 | A write that went out clears the mark iff no newer commit has set it since. |
| DurableRun.RunDO.SyncCheck | basetobase/dispatch/src/run/do.ts:409-433 | A sync, at its turn, decides from the stored state whether to update, create or write nothing. |
| DurableRun.RunDO.OnAnswer | basetobase/dispatch/src/run/do.ts:415-447 | From GitHub's answer: what is stored, whether the mark is settled, and whether the replaced check is written next. |
| DurableRun.RunDO.FinishSync | basetobase/dispatch/src/run/do.ts:367-372 | A sync that is over makes room for the next one, and leaves its owner to finish. |
| DurableRun.RunDO.FinishOwner | basetobase/dispatch/src/run/do.ts:307-310 | Only when the owner is done does its claim on the check end. |
| DurableRun.RunDO.Restart | basetobase/dispatch/src/run/do.ts:80-89 | A reset keeps the state and the mark, and drops everything in memory. |
| CheckMirror.ConclusionStays | basetobase/dispatch/src/run/machine.ts:490-526 | A completed check's conclusion stands under every event but a retry or a bypass that moves the run; a repost ask and GitHub's answers leave it. |
| CheckMirror.AlwaysGood | basetobase/dispatch/src/run/do.ts:294-447 | In every interleaving of commits, syncs, failed and unheard calls and resets, the object and GitHub keep the mirror invariant. |
| CheckMirror.CheckMirrorsRun | basetobase/dispatch/src/run/do.ts:294-447 | Whenever no check write is owed and the run wants a check, the newest check run this run created is the one it knows, and its body is the check of the current state. |
| CheckMirror.NoRepostLost | basetobase/dispatch/src/run/machine.ts:452-471 | No ask for a repost is outstanding only if a completed create read the state after every ask; while one is outstanding on a run that wants a check, the write stays owed. |
| CheckMirror.NeverReopened | basetobase/dispatch/src/run/do.ts:425-431 | No update reopens a completed check run or changes its conclusion. |
| CheckMirror.RetryNeverWaits | basetobase/dispatch/src/run/do.ts:350-362 | A retried sync never waits on GitHub behind another. |
| CheckMirror.RetryQueuesIff | basetobase/dispatch/src/run/do.ts:355-365 | A retry queues a sync iff a write is owed and no commit, sync or owner in this instance has it in hand. |
| CheckMirror.RetryRecovers | basetobase/dispatch/src/run/do.ts:350-365 | Whatever write failed, the next retry, once GitHub takes its calls, leaves nothing owed and the check mirroring the run. |
| CheckMirror.ResetRecovers | basetobase/dispatch/src/run/do.ts:350-365 | A reset at any moment loses no owed write: the next retry makes it good the same way. |
| CheckMirror.QueueRecovers | basetobase/dispatch/src/run/do.ts:367-372 | The sync a check effect queues does as much at its turn. |
| CheckMirror.ReplacedIsMarked | basetobase/dispatch/src/run/do.ts:433-447 | A sync that answers a repost leaves the replaced check run marked, and the new one the newest. |
| CheckMirror.NonePosted | basetobase/dispatch/src/run/machine.ts:465-471 | A run that ended before its sweep was done with no check run and no call under way never posts one. |
| CheckMirror.QuietSyncSettles | basetobase/dispatch/src/run/do.ts:409-447 | From every reachable state, one undisturbed sync whose calls GitHub takes leaves nothing owed and the check mirroring the run. |
| IndexMirror.AlwaysGood | basetobase/dispatch/src/run/do.ts:284-343 | However commits, index writes, unheard and late writes and resets interleave, the invariant of the mark, the writes and the row holds. |
| IndexMirror.MirrorsUnlessOvertaken | basetobase/dispatch/src/run/do.ts:325-343 | With no index write owed, the row is of the newest revision, and shows the run as it is, unless it was overtaken: applied after a write begun under a newer mark. An overtaken row is of an older revision. |
| IndexMirror.OvertakenExactly | basetobase/dispatch/src/run/do.ts:328-343 | A row is overtaken exactly when the database applies a write older than one it has applied, until it applies one that is not. |
| IndexMirror.RowMirrorsRun | basetobase/dispatch/src/run/do.ts:325-343 | With writes applied in the order of their marks, whenever none is owed the row shows the run as it is. |
| IndexMirror.QuietWriteSettles | basetobase/dispatch/src/run/do.ts:325-343 | From every reachable state with a row write owed, one undisturbed write leaves none owed and the row showing the run. |
| IndexMirror.LateWriteHidesTitle | basetobase/dispatch/src/run/do.ts:328-343 | Without that order it may not: a run in which a late first write puts the old title back, with nothing owed that would mend it. |
| EventLog.Log.AppendLog | basetobase/dispatch/src/run/do.ts:496-516 | A line enters the log iff its agent's number is not there yet. |
| EventLog.Log.StoreEvents | basetobase/dispatch/src/run/do.ts:124-137 | A batch leaves the log as its new lines would, and the run is told how many there were. |
| EventLog.KeysApart | basetobase/forwarder/src/run.ts:41 | With fewer than 10^6 events an attempt and at most 1000 attempts a job, retry count, attempt and event are all read back from a key. |
| EventLog.KeysMeet | basetobase/dispatch/src/run/do.ts:57-60 | Both bounds are exact: one event or one attempt more takes another's key. |
| EventLog.ReplayChangesNothing | basetobase/dispatch/src/run/do.ts:124-137 | A batch that was delivered before, however long ago and whatever came in between, changes neither the log nor the run. |
| EventLog.ExactlyOnce | basetobase/dispatch/src/run/do.ts:496-516 | Whatever is delivered, in whatever order and however often, a source's lines in the log are the events of the batches that arrived, each once, in the order each batch first came. |
| EventLog.LinesTell | basetobase/dispatch/src/run/do.ts:496-516 | Each of those lines has its event's time and kind, and its text cut at 2000 characters. |
| EventLog.PushOrderExactly | basetobase/forwarder/src/run.ts:41 | Those lines are in push order iff no batch first came after a later one; duplicates, however late, do not matter. |
| Batcher.BatchIsLongest | basetobase/forwarder/src/batcher.ts:85-95 | A batch is the longest prefix of the queue within `maxBatch` whose exact JSON length is under `maxBatchBytes`, or a single event. |
| Batcher.EventBatcher.TakeBatch | basetobase/forwarder/src/batcher.ts:85-95 | The running byte count cuts the queue at that prefix and leaves the rest. |
| Batcher.EventBatcher.Push | basetobase/forwarder/src/batcher.ts:131-136 | A push queues the event unless abandoned, and starts a drain at a full batch, a timer otherwise. |
| Batcher.EventBatcher.Start | basetobase/forwarder/src/batcher.ts:116-121 | A drain starts only when none runs, nothing is abandoned and something is queued. |
| Batcher.EventBatcher.OnTimer | basetobase/forwarder/src/batcher.ts:97-103 | The timer, once fired, is gone, and a drain is started. |
| Batcher.EventBatcher.OnAnswer | basetobase/forwarder/src/batcher.ts:65-82 | A batch taken or refused for good is done with; any other failure keeps it, asleep for its delay. |
| Batcher.EventBatcher.OnSlept | basetobase/forwarder/src/batcher.ts:66-79 | A woken drain sends the same batch again, unless abandoned. |
| Batcher.EventBatcher.OnExpired | basetobase/forwarder/src/batcher.ts:153-157 | A close that times out abandons what is left, and wakes a sleeping drain to end it. |
| Batcher.EventBatcher.AfterBatch | basetobase/forwarder/src/batcher.ts:105-114 | After a batch the drain goes on, or ends and leaves a timer if anything is queued. |
| Batcher.EventBatcher.Close | basetobase/forwarder/src/batcher.ts:138-151 | A close wakes a sleeping drain or starts one, and is over at once if there is nothing to send. |
| Batcher.EventBatcher.Abandon | basetobase/forwarder/src/batcher.ts:160-167 | An abandoned batcher has no queue and no timer, and releases a waiting close. |
| Batcher.ConservesAndNeverSleeps | basetobase/forwarder/src/batcher.ts:40-168 | In every run, until abandoned: the events pushed are the batches taken, in order, then the queue; and a queue, while neither closing nor abandoned, always has a timer or a drain. |
| Batcher.FullNeverWaits | basetobase/forwarder/src/batcher.ts:105-136 | A full batch never waits for the timer: whenever as many events as a batch holds are queued, a drain is at work, unless it is abandoned. |
| Batcher.FullPushSends | basetobase/forwarder/src/batcher.ts:131-136 | The event that fills a batch, coming to an idle batcher, sends it at once. |
| Batcher.BacksOff | basetobase/forwarder/src/batcher.ts:65-82 | A batch that keeps breaking sleeps out each delay set in turn, then the ceiling each time. |
| Batcher.DrainedIsEmpty | basetobase/forwarder/src/batcher.ts:123-151 | A close that drains leaves nothing queued or in flight, and every event pushed was taken. |
| Batcher.DrainedIsLogged | basetobase/forwarder/src/batcher.ts:65-114 | End to end: after a drained close with nothing dropped, the log holds exactly the events pushed, once each and in order, whatever was resent, whenever a send given up as failed came in after all, even behind later batches or after the close, and whatever else was delivered. |
| Batcher.LoggedIsPrefix | basetobase/forwarder/src/batcher.ts:65-114 | At every moment of a run in which no batch has been refused, abandoned or not, the log holds a prefix of the events pushed, in order and once each: every batch taken but perhaps the last, and, until it is abandoned, every batch done with. |
| Batcher.SafeInOrder | basetobase/forwarder/src/batcher.ts:65-114 | The batches first arrive in push order, through any close, expiry or abandonment, unless one was refused after a send of it broke. |
| Batcher.OrderExactly | basetobase/forwarder/src/batcher.ts:65-114 | In every run they have arrived in push order iff none arrived behind a later one. |
| Batcher.BreaksExactly | basetobase/forwarder/src/batcher.ts:65-82 | An arrival may break an order that has held iff it is of a batch refused after a send of it broke, not arrived before, with a later one arrived; and such a batch may always arrive. |
| Batcher.LogOrderExactly | basetobase/forwarder/src/batcher.ts:65-114 | End to end, refusals and abandonment included: the log holds the events of the batches that arrived, each once, in push order iff no batch arrived behind a later one, so always where no batch was refused after a send of it broke; and every batch done with has arrived or was refused, but for an abandoned batcher's last. |
| Batcher.RefusedMayArriveLate | basetobase/forwarder/src/batcher.ts:65-82 | Such a batch there can be: a run in which one refused after a send of it broke first arrives behind the next. |
| Reconcile.FindNewest | basetobase/dispatch/src/reconcile/pr.ts:222-232 | The loop finds the newest run. |
| Reconcile.NewestIsLatest | basetobase/dispatch/src/reconcile/pr.ts:221-232 | The newest run is the one later than every other by start, then by id. |
| Reconcile.LaterMeans | basetobase/dispatch/src/reconcile/pr.ts:221-232 | Later is by start, and at one start by the greater id, the strings compared character by character. |
| Reconcile.NewestSame | basetobase/dispatch/src/reconcile/pr.ts:221-232 | It does not depend on the order the runs are read in, nor on their status or title. |
| Reconcile.LandsExactly | basetobase/dispatch/src/reconcile/pr.ts:80-87 | What lands is the latest run on a head merged into the default branch, whatever its status, unless it has landed already. |
| Reconcile.PlanExact | basetobase/dispatch/src/reconcile/pr.ts:88-97 | Of the open runs other than the one landed, a reconcile keeps exactly the latest on a patrolled PR's head, stops exactly the others, and retitles exactly those of an open PR under another title. |
| Reconcile.ReconcileLeaves | basetobase/dispatch/src/reconcile/pr.ts:72-110 | Run by run: the one it lands has landed, an ended one is as it was, and an open one has an open PR's title and is stopped, unless the PR is patrolled and it is the latest open run on the head. |
| Reconcile.RepostExact | basetobase/dispatch/src/reconcile/pr.ts:105-109 | The kept run is asked to repost iff a run on the same head is stopped. |
| Reconcile.PrRuns.LandMerged | basetobase/dispatch/src/reconcile/pr.ts:80-87 | Landing changes the status of that run and nothing else. |
| Reconcile.PrRuns.AskEach | basetobase/dispatch/src/reconcile/pr.ts:98-104 | The calls made run by run leave every run as the plan says, and the others alone. |
| Reconcile.PrRuns.ReconcilePr | basetobase/dispatch/src/reconcile/pr.ts:72-110 | A whole reconcile lands, stops and retitles exactly what it is to, whether the open runs are read with the landed one still among them or no longer. |
| Reconcile.ReconcileSettles | basetobase/dispatch/src/reconcile/pr.ts:70-110 | Safe to repeat: a second reconcile against the same PR lands, stops, retitles and reposts nothing, for every state of the PR and its runs, whether a landing showed in the open runs read or not. |
| StartPr.Begin | basetobase/dispatch/src/reconcile/pr.ts:114-176 | A run is started iff the event's head is the live PR's, the PR is patrolled, no open run is on the head unless it was retargeted, and the files call for one; each reason for ignoring the event, and a failed call, is given exactly when it holds. A GitHub failure before anything replaces the old runs leaves every run as it was; otherwise the runs are as a reconcile leaves them, the new one among them. |
| StartPr.ReconcileLeavesLatest | basetobase/dispatch/src/reconcile/pr.ts:88-104 | A reconcile of a patrolled PR leaves open exactly the latest of its open runs on the head, under the PR's title. |
| StartPr.StartLeavesOne | basetobase/dispatch/src/reconcile/pr.ts:150-176 | After a start that finds the PR unmoved, the only open run is the new one, unless an open run on the head claims a later start. |
| Race.AlwaysGood | basetobase/dispatch/src/reconcile/pr.ts:72-176 | However starts, index writes delayed, overtaken or lost, reads, stops, retitles and failures interleave, the race invariant holds. |
| Race.LatestNeverStopped | basetobase/dispatch/src/reconcile/pr.ts:221-232 | The run that turns out to have started last on the head was open in every state before, and no reconcile ever meant to stop it. |
| Race.FullReadDecides | basetobase/dispatch/src/reconcile/pr.ts:156-176 | Once one reconcile that read an index with every start in it is through, that run is the only open one and has the PR's title, whatever became of the others. |
| Race.RacingStartsConverge | basetobase/dispatch/src/reconcile/pr.ts:72-176 | When every start has indexed its run and reconciled, exactly the latest run is open, under the PR's title, whatever the rows say. |
| Race.DecidedIsQuiet | basetobase/dispatch/src/reconcile/pr.ts:70-110 | With the race so settled and the rows up to date, one more reconcile does nothing. |
| Resolver.SurvivorsExact | app/resolver.go:25-51 | Of each type's constructors exactly the last registered survives. |
| Resolver.Register | app/resolver.go:22-54 | Registration stops at the first value that is no constructor or provides a built-in, and otherwise gathers the survivors, in order, with an index of their places. |
| Resolver.BuildGraph | app/resolver.go:56-81 | The first dependency nobody provides is reported; otherwise each constructor counts its dependencies with their repetitions, every provider lists its dependents as often, and the ready list holds the constructors that wait for none. |
| Resolver.Release | app/resolver.go:106-110 | Each dependent waits for one thing less for each time it is listed, and becomes ready once, when it waits for nothing. |
| Resolver.Build | app/resolver.go:88-111 | The calls made are in dependency order, each with the singletons of its dependencies, and end when nobody is ready. |
| Resolver.Report | app/resolver.go:113-122 | The cycle report lists exactly the providers never built, in order. |
| Resolver.RankFrees | app/resolver.go:88-122 | If the dependencies can be ranked, no set of constructors can each wait for one of the set. |
| Resolver.UnbuiltLargest | app/resolver.go:113-122 | Every set of constructors that wait for one another is among the unbuilt ones. |
| Resolver.OrderRanks | app/resolver.go:88-111 | The places in a complete call order are a rank of the dependencies. |
| Resolver.Resolve | app/resolver.go:18-125 | With last-registered-wins, resolving succeeds iff every registration is acceptable, every surviving dependency is a built-in or provided, and the dependencies can be ranked. On success each survivor is called exactly once, after its dependencies and with their singletons, those with none first in the order registered. On a cycle the report is exactly the largest set of types whose constructors each wait for one of them. |
| RunNames.DecimalInjective | basetobase/shared/src/triage.ts:94 | Lap numbers are told apart by their digits. |
| RunNames.LapReadBack | basetobase/shared/src/triage.ts:100-105 | A lapped name is read back as the trail it laps, unless a trail has that very name. |
| RunNames.LapsBound | basetobase/shared/src/triage.ts:91-97 | Laps taken whole need as many active names. |
| RunNames.PickRunName | basetobase/shared/src/triage.ts:84-98 | The search ends, within one lap more than there are active names, with a name no active run holds: the first free one, lap by lap, in cyclic order from the one after the last. |
| RunNames.PlainWhileFree | basetobase/shared/src/triage.ts:84-98 | The name carries a lap number iff every plain name is active. |
| RunNames.LastComesLast | basetobase/shared/src/triage.ts:84-98 | The last run's name is given again only when every other is active. |
| Covers.CoversOf | basetobase/shared/src/design.ts:7-11 | The numbers of the goal's whole `For:` lines, each once, in the order each first came. |
| ForLines.MatchTakesOne | basetobase/shared/src/design.ts:9 | A match of the expression may take blank lines after its own with it, but never a line that gives a number: what it finds from a place on is what the lines from there on give, one by one. |
| ForLines.LineReadBack | basetobase/shared/src/design.ts:5-9 | A line written as asked for, with any white space after it, gives the number written. |
| Covers.SearchIsMembership | basetobase/dispatch/src/runs/index.ts:31-53 | The comma-wrapped search finds a number iff it is one of those stored. |
| Covers.FirstSpeaks | basetobase/dispatch/src/runs/index.ts:101-103 | The query's first row of a PR is its newest open run, else its newest landed one. |
| Covers.OwedExactly | basetobase/dispatch/src/runs/index.ts:90-114 | A PR is listed iff the run that speaks for it was bypassed and no other PR's landed, clear run in the repository covers it. |
| Covers.OwedOnce | basetobase/dispatch/src/runs/index.ts:101-104 | No PR is listed twice. |
| MergeLog.Merge | basetobase/dashboard/src/useRunLive.ts:16-21 | A merge gives the newest `cap` of the lines by id, strictly sorted, the last line of an id standing. |
| MergeLog.TopOfTop | basetobase/dashboard/src/useRunLive.ts:16-21 | An id capped away would be capped away whatever came later. |
| MergeLog.CappingEarlyLosesNothing | basetobase/dashboard/src/useRunLive.ts:16-21 | Merging batch by batch with the cap each time equals one merge of all the lines capped once. |
| MergeLog.OrderAndRepetitionVanish | basetobase/dashboard/src/useRunLive.ts:14-21 | With one line an id, neither the order lines arrive in nor their repetition changes the log. |

## Left out

- HTTP routes, OAuth, OIDC and HMAC, cookies, JSON payloads, the GitHub, Linear, Gmail, Mongo, Postgres and LLM clients, React components, sockets and the lobby: input and output, or wrappers over libraries.
- The exact text of notes, titles, summaries and log lines: each is a record of what its lines say, so two bodies are equal exactly when those records are. The cut at 60,000 characters and the public URL in the links are left out.
- What the lobby is told of a row: `IndexMirror` has only whether the announcement went out, which settles the mark.
- The newest check on a head across runs: a superseded run that has swept may still owe a create or a repost, so the mirror is stated for each run by itself.
- The nonce check and the dispatch result: `admit` rereads the state after its input and output but not the nonce, and a dispatch result is not tied to an attempt (basetobase/dispatch/src/run/do.ts:272-280, 471-476). An admitted report is one step here, and no isolation of attempts is claimed for dispatch results.
- An alarm armed across resets: `alarm()` can return without arming one while a sync is in flight. The alarm's properties are those of the machine.
- A check run whose create GitHub applied but the object never heard of: a later create supersedes it; on a run that stops while pending it stays as it was posted.
- The globs, which `StartPr` has as two marks on a file, and the run names a start reads. A start in `Race` may come at any time, of any new run on the head.
- Reposts in the race: `Reconcile.RepostExact` says when one is asked for.
- The race under a PR that changes, and stops made by hand: the PR's state is fixed while the starts and reconciles race.
- The order and failure of single stops within one reconcile: `Reconcile.PrRuns.ReconcilePr` makes its calls in turn, which touch a run each; `Race` interleaves them freely and lets a reconcile break off.
- Batcher.DrainedIsLogged: after a refusal the log may lack the batch refused, or have it late; `Batcher.LogOrderExactly` says what it holds and when it is in push order.
- Race.RacingStartsConverge: needs every reconcile to have come through; `Race.FullReadDecides` needs only one to have.
- A race that opens with index rows behind their runs, or with row writes of an earlier time still on their way: `Race` starts with every row up to date. Every write begun after that may be late, overtaken or lost.
- Constructors that return nil, panic or have effects, and whether a value fits a parameter's type: a call in `Resolver` is known by its constructor and arguments.
- `analyze`'s reasons for refusing a value: a registered value is acceptable or not.
- Numbers beyond 2^53 in a `For:` line, and the ordering of the owed designs' list.
- The rating, the panels and the line counts of a triage; order pagination, run merging, deploy polling and middleware chaining: each is one loop or one table, whose contract would repeat it.
- The microtask hops between a drain's end and a waiting close: one uninterrupted step in `Batcher`.
- A log line's trimming of its text, and the page of recent lines the object returns.
