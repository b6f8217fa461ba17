# The transcription pipeline, verified

A model of the backend's transcription pipeline and of the account features beside it, with proofs of what they
promise. `dafny verify dfyconfig.toml` checks everything.

## What is modelled

A client creates an event with a recording, uploads its audio to a bucket, and a finalize notification queues a task.
A worker claims the row with one conditional update and hands the audio to a remote box under the recording's id. The
box finishes later; a collector drains result pages, persists each result in its own transaction and only then
acknowledges, which is what deletes results on the box. A sweep collects and then re-drives rows that fell out.
Tasks are delivered at least once, processes may die between any two awaits, and several of each kind may run at once.

The project has four parts.

* **The protocol.** `Core.dfy` gives rows, jobs and each committed transaction as a function on the tables.
  `Protocol.dfy` is the state machine: clock, clients, bucket, queue, box and any number of workers, collectors and
  sweeps, each of which can vanish at any step. A world also carries the history of claims, of writes that sent a row
  back, and of committed decisions about drained jobs. The theorems about it are for all runs.
* **The code.** `Session.dfy` and `Transcriber.dfy` are the database session and the box's client as classes;
  `Submission.dfy`, `Collection.dfy` and `SweepPass.dfy` are `run_transcription`, `collect_transcripts` and `sweep` as
  methods with their loops, counters and handlers. Their contracts give the whole new state as a function of what the
  box answered and of the time stamps taken (recorded in ghost results); lemmas then show what it comes to, and that it is
  a run of the protocol in which one process alone acts (`Leads`: beside that process only the clock moves, and an attempt
  has its own task created and retired), with the history it adds. `Refinement.dfy` carries the protocol's theorems over.
* **Recovery.** `Service.dfy` is the service as whoever schedules it sees it: whole executions of the entry points, as
  the code's contracts describe them, one after the other. The scheduler says what comes next; how it comes out is a `Fate`
  it has no say in: which jobs a page shows, how the database orders rows of equal age, how long anything takes, what the
  box makes of a job. `Effects.dfy` reduces executions to what recovery needs, `Recovery.dfy` proves what the scheduler can
  achieve under every fate, `Exactness.dfy` that it cannot achieve more, `BlackHole.dfy` the same for all runs whatsoever.
* **Beside the pipeline.** `AudioKeys.dfy` (object keys), `Trigger.dfy` and `Tables.dfy` (create event, finalize
  routing), `AccountDeletion.dfy` (the deletion saga), `TagUpsert.dfy` (upsert under a unique constraint) and
  `TagReferences.dfy` (tag deletion and automatic tagging).

### What the model takes for granted

* A committed transaction is one atomic step, a rollback none. Audio and transcripts are opaque values, times integers.
* The box is honest: a finished job stays as it is until it is acknowledged, discarded or expires; a drain answers
  `min(limit, waiting)` finished jobs, in any order, and the true count; acknowledging ignores unknown ids; a submit
  takes effect before it returns or not at all, but the caller may see an error although it did; the same id with the
  same bytes is a hit, with other bytes a 409, and a 409 means nothing else (`HonestConflicts`).
* `Job.serial` numbers submissions and `Tables.minted` remembers created recordings. No code branches on either; they
  only let statements say "this very result" and "the key that was minted".
* `events.recording_id` is unique (`app/models/event.py:40-42`), so events are keyed by their
  recording in the pipeline. `description` and `error` are at most 2000 characters, as the production database enforces.
* Remote calls, clocks and uuids are parameters: every method takes how its calls go (`Weather`, `Season`, `Sky`,
  `Errands`, `Mishaps`), so each contract covers every behaviour of the outside.
* Recovery supposes that what the box works off from then on is a failure or a text that fits its column, and for the
  recording in question a text (`Fitting`), that no call fails while it lasts (`FAIR`, `CLEAR`, `CALM`), and a batch limit
  above zero.
* Thresholds and limits are fields of `Settings`; the page size (200), the page limit (10) and the text limit (2000) are
  the constants of the code.

### What turned out not to hold

* `done` is not final under free interleaving, although the sweep takes a 404 to mean that no transcript is coming: a
  sweep that selected a row before another instance collected it reverts the finished row (`SweepRace`). It is final
  when entry points run one at a time (`DoneIsFinal`), and `UndoneExactlyBy` says which writes undo it.
* Collections are documented as safe to run beside each other because a duplicate ack is a no-op. A page has no lease:
  if an id is acknowledged, submitted again and finished while another collector still holds the old page, that
  collector's ack deletes the new, undecided result (`LateAck`). `AckIsSafeExactlyIf` is the exact condition.
* A transcript longer than the description column can never be stored and is never acknowledged, and that makes three
  black holes (`BlackHole`). A row that waits for such a result stays `transcribing`: the sweep sees the job on the box and
  leaves the row alone, until the result expires or row or event is deleted; other bytes in the bucket do not help, as
  nobody submits them. A row that may be claimed again ends there too, unless the bucket has other bytes by then. Such
  rows hold up others: the sweep looks at the `limit` oldest stuck rows only, so once `limit` of them are as old as a row
  whose job the box lost, or older, sweeps can pass that row over for ever. And they can stop the service for everybody:
  once the box holds 200 of them it may list nothing else, and a collection that sees nothing else stalls, every time.
  `FinishableExactly` shows that these are all the cases in which recovery needs a result to expire (refused results that
  an attempt is going to replace do not count); with expiry every recording recovers (`NoBlackHole`). With fewer than 200
  refused results no choice of pages holds up anybody else (`EnoughCollections`).
* An object under a user's prefix that is not an audio key (`v0/u/x.txt`, `v0/u/a/b.m4a`) makes every attempt to delete
  that account fail (`RetryCompletes`, `StraysAreNobodys`, `StraysExist`).
* The finalize route drops a recording's upload when its owner id has a slash in it, and answers an orphan whose owner
  id is `.`, `..`, empty or has a backslash with an error for ever (`MintedKeyIsRoutedOnlyIf`).

## Model

| member | source | states |
|---|---|---|
| PersistThenAck.DecisionPrecedesAck | app/services/transcription.py:222-249 | in every run, with any number of collectors and crashes, an ack removes from the box only results whose sound decision (transcript written, row failed, row pending for `audio_missing`, already done with an earlier write on record, or no recording) was committed before, provided no id is submitted anew while a collector still holds it |
| PersistThenAck.AckIsSafeExactlyIf | app/services/transcription.py:234-237 | at every ack of every run, without that hypothesis: it removes only decided results if and only if every job it hits that was submitted again since its page was drained has been decided too |
| PersistThenAck.HistoryAlways | app/services/transcription.py:222-249 | every run keeps, whatever is resubmitted when: what a collector may ack is decided on record, done rows have a transcript commit on record, and pages report finished jobs |
| PersistThenAck.PersistDecides | app/services/transcription.py:262-355 | a persist that commits leaves a decision that answers exactly the drained result, and every done row has a transcript commit on record |
| PersistThenAck.DecisionsMeetTables | app/services/transcription.py:262-355 | in every run a decision enters the history in the step whose tables bear it out, row by row and column by column: the description is that very text (empty if the box had none), the error is that reason cut to 2000 characters, the row is pending with its error kept, was done already, or no row or no event was there |
| Refinement.CodePersistsThenAcks | app/services/transcription.py:204-259 | in every sequence of executions of the entry points, run to their end or broken off, with any steps of clients, clock, queue and box in between, no collection takes an undecided result off the box |
| Refinement.CollectionAcksOnlyDecided | app/services/transcription.py:204-259 | one execution of the collection loop, whatever fails in it, takes off the box only results whose decision is committed, and adds nothing to it |
| Refinement.BrokenOffAcksOnlyDecided | app/services/transcription.py:222-237 | the same for one that dies anywhere on a page, in particular between persist and ack |
| Refinement.ClaimsApart | app/services/transcription.py:103-111 | the claims in the history of an execution are separated like those of any run |
| LateAck.LateAckLosesResult | app/services/transcription.py:215-217 | a reachable run in which an old page's ack deletes a resubmitted, undecided transcript |
| ClaimExclusion.ClaimsExclude | app/services/transcription.py:103-111 | in every run, two successful claims of one recording are separated by a committed write that took the row back to pending or failed |
| ClaimExclusion.DuplicatesAreNoops | app/services/transcription.py:99-111 | from every reachable world, any number of duplicate tasks with no such write in between make exactly one submitter; all others are no-ops |
| DoneIsFinal.DoneIsStored | app/services/transcription.py:304-323 | in every serialised run with crashes anywhere, a done row with its event shows the transcript that the transaction making it done stored, and the box holds that very result or nothing: if it holds a text, that text is the description, and if it holds none, the description is empty |
| DoneIsFinal.DoneStays | app/services/transcription.py:452-467 | such a row stays done with the same text for as long as row and event exist |
| DoneIsFinal.OnceDoneAlwaysDone | app/services/transcription.py:99-111 | the same for every split of a serialised run from the start |
| DoneIsFinal.UndoneExactlyBy | app/services/transcription.py:452-467 | under any interleaving a step takes a complete recording out of done exactly when it is one of the unconditional writes aimed at it |
| DoneIsFinal.NeverOverridden | app/services/transcription.py:336-355 | with serialised entry points none of those writes ever meets a complete recording |
| SweepRace.SweepUndoesDone | app/services/transcription.py:391-408 | a reachable run in which a sweep reverts a recording that another instance has just completed |
| Confluence.CollectorsAreConfluent | app/services/transcription.py:204-259 | any two collecting runs from the same finished jobs, in any interleaving with crashes, rollbacks and repeats, that drain what can be stored end with the same states, errors and descriptions |
| Confluence.WrittenOnce | app/services/transcription.py:304-323 | along the way each storable transcript is written at most once by whichever collector came first, and exactly once by the time its job is gone |
| Confluence.LaterOnesSkip | app/services/transcription.py:304-323 | at every persist of every collecting run: the first collector to decide a storable transcript writes it; every later one finds it written, changes nothing and may still ack it |
| Confluence.DecideTwice | app/services/transcription.py:262-355 | persisting a job again shows the same state, error and description as persisting it once |
| Confluence.DecisionSettles | app/services/transcription.py:304-323 | one more decision about a job, first or repeated, keeps every recording either untouched or as its one job leaves it |
| Service.PlayIsRun | app/services/transcription.py:204-437 | whatever the scheduler lets happen, and however it comes out, is a run of the protocol |
| Recovery.NoBlackHole | app/services/transcription.py:361-437 | from every reachable world, whatever died where, and under every honest fate from there on, a recording with its event and acceptable audio becomes done by clock, box work, whole collections, whole sweeps with their collections and whole attempts alone; without any new task unless it has failed or the box reports a failure, and with one otherwise; results need to expire only if it is `Blocked` |
| Recovery.EnoughCollections | app/services/transcription.py:219-243 | with fewer than 200 refused results on the box, and however it chooses its pages, a result that can be stored is stored within as many whole collections as there are such results |
| Recovery.Unclog | app/services/transcription.py:178-198 | refused results that attempts replace go, by sweeps and attempts, until fewer than 200 others are left, unless the recording is done before |
| Recovery.Unstick | app/services/transcription.py:387-410 | a row left `transcribing` whose job the box lost gets back to pending with a task by clock, box, whole collections and whole sweeps alone, however rows of equal age are ordered, if fewer refused rows than a batch has places are as old or older |
| Recovery.Requeue | app/services/transcription.py:412-425 | a pending row for which no result that can be stored is coming gets a task by clock, whole sweeps and whole attempts of the rows ahead of it alone, however many are ahead and however ties are broken, unless the recording that recovery is about is done before |
| Recovery.SubmitAndFinish | app/services/transcription.py:103-198 | one delivered task for a claimable row that the box has not got, or has got with other bytes, leads to done by that attempt, the box and whole collections, whatever their pages show |
| Exactness.FinishableExactly | app/services/transcription.py:239-243 | in every reachable world, a recording with its event and acceptable audio becomes done under every honest fate, without expiry and without a new task for anybody else, if and only if it is not `Blocked`: neither is its own result refused without an attempt that would replace it, nor is it a lost stuck row behind at least `limit` stuck rows with refused results that are as old or older, nor are there 200 other refused results on the box that no attempt will replace |
| Exactness.StaysBlocked | app/services/transcription.py:239-243 | every move can honestly come out so that a blocked recording stays blocked: pages from the refused results, batches without the row |
| Exactness.WorstFate | app/services/transcription.py:219-221 | there is an honest fate, and one under which whatever is blocked stays so |
| BlackHole.PinnedForGood | app/services/transcription.py:397-406 | a row waiting for a result that the box has and that cannot be stored is moved by no run, whatever is uploaded, unless the result expires or row or event is deleted |
| BlackHole.StarvedForGood | app/services/transcription.py:391-396 | a lost stuck row behind a full batch of such rows, older or listed first among rows of equal age, is moved by no run, unless one of them is released or the row is deleted |
| BlackHole.TiesCanBeLast | app/services/transcription.py:391-396 | such a batch is always a correct answer, and with older rows only every answer is one |
| BlackHole.CloggedForGood | app/services/transcription.py:239-243 | while the box draws its pages from 200 or more such results, no run with any processes and deaths completes any other recording, unless one of those is released |
| BlackHole.ClogPage | app/services/transcriber.py:232-264 | and such a page is always an honest answer |
| BlackHole.NeverDone | app/services/transcription.py:185-198 | a row in any state, attempts in flight included, whose refused result was made from the very audio in the bucket becomes done in no run unless the result expires, the audio is overwritten, or row or event is deleted |
| BlackHole.DoomedIsReachable | app/models/event.py:32 | that state is reachable: a transcript one character longer than the column |
| BlackHole.CrowdedIsReachable | app/services/transcription.py:391-396 | so is the second: an attempt that died after its claim, behind one refused result, with room for one in a batch, and nothing else in the way |
| BlackHole.CloggedIsReachable | app/services/transcription.py:239-243 | and the third, with the default settings: a finished transcript that fits, on a box with 200 that do not |
| SweepBounds.SweepIsBounded | app/services/transcription.py:383-425 | under every interleaving one sweep queues no recording twice, looks up at most `limit` jobs and sends at most 2 * `limit` tasks |
| Fairness.PendingIsQueued | app/services/transcription.py:412-425 | in every run in which the queue is up and no sweep exits early, with m stale pending rows as old or older in front of it when a sweep selects, a stale pending row has its task in the queue within floor(m / limit) + 1 sweeps, or has been moved by something else, if each sweep begins after the one before has selected and the tasks that one queued have claimed when it selects |
| Fairness.PendingIsFairInRuns | app/services/transcription.py:412-425 | in every run, with m stale pending rows as old or older in front of it when a sweep selects, a stale pending row is selected by that sweep or one of the next floor(m / limit), or has been moved by something else, if each sweep begins after the one before has selected and the tasks that one queued have claimed when it selects |
| Fairness.SelectedIsSent | app/services/transcription.py:422-425 | a selected row is sent in every run in which the sweep gets through its batch, and is in the queue then if the queue is up |
| Fairness.SweepsAreSchedule | app/services/transcription.py:412-425 | the sweeps of a run, spaced like that, are the schedule the counting argument is about |
| Fairness.AheadShrinks | app/services/transcription.py:103-107 | a sweep that passes a row over takes `limit` rows from in front of it for good, because claims restamp |
| Stamps.RunMovesOn | app/services/transcription.py:452-467 | over any run a row is as it was or carries a stamp no older than the start |
| Transcriber.RaiseForStatus | app/services/transcriber.py:327-342 | exactly 400, 409 and 413 are permanent, each its own error; exactly 503 is busy, with the Retry-After that came with it; exactly 401 is unauthorized |
| Transcriber.Box.Submit | app/services/transcriber.py:194-229 | a new id is queued with its bytes, the same bytes are a free hit, other bytes a conflict that changes nothing; an error may hide an effect |
| Transcriber.Box.Drain | app/services/transcriber.py:232-264 | a page of `min(limit, waiting)` distinct finished jobs as they stand, and the true count |
| Transcriber.Box.Ack | app/services/transcriber.py:267-281 | exactly the named jobs go, unknown ids are ignored, an empty list sends nothing, more than 200 ids are refused |
| Transcriber.Box.Discard | app/services/transcriber.py:300-305 | the job goes; one that is not there is gone already |
| Session.Session.Claim | app/services/transcription.py:103-111 | wins exactly on a pending or failed row, and then only that row's state and stamp change |
| Session.Session.MarkFailed | app/services/transcription.py:452-458 | the row fails whatever its state, its error the given text up to 2000 characters of it; no other row, column or table changes |
| Session.Session.RevertPending | app/services/transcription.py:461-467 | the row is pending whatever its state, its error kept; nothing else changes |
| Session.Session.WriteTranscript | app/services/transcription.py:304-323 | row and description change in one transaction or not at all, and exactly if the row is not done and the text fits; owner, key, duration and tags stay |
| Submission.SubmitWithConflictRecovery | app/services/transcription.py:178-198 | at most two submits and one discard; anything but a first conflict ends it |
| Submission.HandedOverRight | app/services/transcription.py:178-198 | an accepted hand-over leaves the box with this id and these bytes, and none touches another job |
| Submission.RunTranscription | app/services/transcription.py:82-175 | one attempt: no-op exactly if the row cannot be claimed and then nothing changes; otherwise tables, box and outcome as its specification has them, so that they agree; which outcome and which error text is spelled out case by case (`Spelled`); at most two submits and one discard, and no other row or job is touched |
| Submission.OutcomeAgrees | app/services/transcription.py:113-175 | for every behaviour of bucket and box: submitted means `transcribing` with this id and these bytes on the box, failed means failed with an error of at most 2000 characters, retry means pending; audio goes out only of a recording with its event, a duration and a size within the limits and an object in the bucket, and with the bucket serving any other is given up on without asking the box |
| Submission.OutcomeIsSpelled | app/services/transcription.py:113-175 | case by case, in the order of the code's checks: no event, too long, bucket broken or not configured, no object, too large, or else the call that ended the hand-over; each with its outcome, its Retry-After and its error text |
| Submission.AttemptIsRun | app/services/transcription.py:82-175 | whatever happens, an attempt is a run of one worker, with no step by anybody else but the clock and its own task, and adds to the history its claim and, for failed and retry, the write back |
| Submission.HandOverLeg | app/services/transcription.py:178-198 | the hand-over is a run of that worker alone: submit, and on a conflict discard and submit once more |
| Submission.Transcribe | app/routers/internal.py:133-145 | 503 exactly for attempts to be retried, whose row is pending, with the box's Retry-After and only then; 500 exactly for an escaped exception; 200 exactly for no-op, submitted and failed; and which of them it is, spelled out |
| Collection.Persist | app/services/transcription.py:262-291 | tables, counters and answer for one drained job, for every job, row, event and failure, as a plain table of cases (`Answers`) |
| Collection.PersistTranscript | app/services/transcription.py:294-333 | the same for a transcript: a text of at most 2000 characters becomes the description as it is, none becomes the empty one, a longer one changes nothing and is kept; no event fails the row, a done row is skipped, a failing tag dispatch withholds only the ack |
| Collection.PersistFailure | app/services/transcription.py:336-355 | the same for a failure: `audio_missing` makes the row pending, anything else fails it with its code, or with `transcription_failed` if there is none |
| Collection.PageSettles | app/services/transcription.py:229-232 | after a page on which nothing went wrong each of its jobs is decided and held for the ack, or can never be stored and changed nothing |
| Collection.CollectPage | app/services/transcription.py:223-249 | one turn of the loop: the box's table, the tables, the acknowledged ids and whether it goes on; it breaks off only when a call failed, so the over-200 guard of the ack is never reached |
| Collection.CollectTranscripts | app/services/transcription.py:204-259 | the whole loop, tied to what the box answered page by page; at most ten pages; raises exactly when a drain or an ack failed; and whatever goes wrong, written, failed, skipped and unknown are the numbers of decisions of these kinds it adds to the history |
| Collection.CollectedTally | app/services/transcription.py:251-259 | the counts of a collection, added up page by page, are those of the decisions in its history: written for a stored text, failed for a failed or requeued row, skipped for one done already, unknown for none |
| Collection.CollectionIsRun | app/services/transcription.py:204-259 | whatever happens, a collection is a run of one collector, with no step by anybody else but the clock, and adds to the history exactly the decisions it committed |
| Collection.BrokenOffIsRun | app/services/transcription.py:222-237 | so is a collection that dies anywhere on a page |
| Collection.CollectionCounts | app/services/transcription.py:219-259 | when nothing goes wrong: nothing is raised, exactly the acknowledged ids are stored and gone, none of them unstorable; without unstorable jobs it makes max(1, min(10, ceil(N / 200))) drains and acknowledges min(N, 2000) ids; with k < 200 of them, at least min(N - k, 10 * (200 - k)) others get through |
| Collection.NoIdlePage | app/services/transcription.py:239-249 | whatever goes wrong, the box has lost at least as many jobs as there were pages followed by another |
| Collection.FairTurn | app/services/transcription.py:229-237 | a good turn stores and removes exactly what can be stored of its page |
| SweepPass.StuckPass | app/services/transcription.py:397-410 | exactly the rows whose job the box says it does not have are reverted and sent |
| SweepPass.PendingPass | app/services/transcription.py:422-425 | every selected row is sent, and the counter counts the tasks that got out |
| SweepPass.RunSweep | app/services/transcription.py:361-437 | collection, both selections and both passes; a collection that raises ends it before anything is sent; its counters are those of the decisions taken and of the tasks that got out |
| SweepPass.BatchIsOldest | app/services/transcription.py:390-425 | a selection has `limit` stale rows or all there are, each once, oldest first, and no row left out is older than one taken |
| SweepPass.SweepIsRun | app/services/transcription.py:361-437 | a whole sweep is a run of one collector alone and then of one sweep alone, and adds to the history the decisions of the one and the rows taken back by the other |
| SweepPass.SendsOnce | app/services/transcription.py:387-425 | at most `limit` lookups and 2 * `limit` distinct enqueues: a reverted row is too young for the pending pass |
| SweepPass.StuckProgress | app/services/transcription.py:390-410 | with h < limit held rows and q lost ones, box and queue reachable, at least min(q, limit - h) lost rows are reverted and sent and every held row is unchanged |
| SweepPass.TakenAt | app/services/transcription.py:461-467 | what the stuck pass does to each single row |
| AudioKeys.ParsesExactly | app/services/storage.py:68-101 | the parsers return a pair of ids exactly for the key printed from it, and only for non-empty slash-free ids |
| AudioKeys.PrintParsed | app/services/storage.py:78-101 | whenever both parsers succeed, printing gives the key back |
| AudioKeys.OwnerlessKeys | app/services/storage.py:86-101 | the record parser alone accepts exactly the keys with an empty owner |
| AudioKeys.UnderPrefix | app/services/storage.py:96-107 | an audio key lies under an owner's prefix exactly when it parses to that owner |
| AudioKeys.PrefixesApart | app/services/storage.py:104-107 | no name lies under two users' prefixes |
| AudioKeys.JoinSplit | app/services/storage.py:86 | splitting at slashes loses nothing and leaves no slash |
| AudioKeys.Layout | app/services/storage.py:60-107 | printer, prefix, parsers and the check on ids mean literally `v0/<user>/<recording>.m4a`, `v0/<user>/`, and ids that are not empty, `.` or `..` and have neither slash nor backslash |
| Tables.HistoryIsSound | app/services/events.py:64-98 | in every reachable database keys name owner and recording, a recording is linked once and by its owner, idempotency keys are unique and no row outlives its user |
| Trigger.Events.CreateEvent | app/services/events.py:42-116 | a repeated idempotency key changes nothing and answers with its event, and with an upload target under its recording's key exactly as long as the recording has its row and signing works; otherwise recording and event are inserted together or not at all, exactly if user, key and signing allow it, and the target is the minted key |
| Trigger.RetryIsAnsweredAlike | app/services/events.py:53-60 | whatever happens between the first request and a retry, as long as the event is there: the retry gets that event and the key `v0/<user>/<recording>.m4a` of its own recording, or the signing error |
| Trigger.UploadTargetIsOwn | app/services/events.py:119-126 | in every reachable database the key that an event's upload target is made from is `v0/<owner>/<recording>.m4a` of its own owner and recording, whose row exists, and, unless the owner id has a slash in it, an upload there queues that recording |
| Trigger.Uploaded | app/routers/internal.py:163-222 | queue, bucket and answer for every notification: exactly what the routing asks for is done, acked exactly if it worked or there was nothing to do |
| Trigger.DeleteOrphan | app/services/storage.py:123-128 | exactly the named object goes, and nothing for a name that is not an audio object of an acceptable owner; succeeds exactly if the calls it needs work |
| Trigger.DeleteAudio | app/services/storage.py:160-183 | exactly the named object goes, whatever else has it as a prefix; succeeds exactly if the calls it needs work |
| Trigger.MintedKeyIsRouted | app/routers/internal.py:197-222 | in every reachable database the upload for a recording queues exactly it while its row exists and asks for the removal of exactly that object afterwards |
| Trigger.MintedKeyIsRoutedOnlyIf | app/services/storage.py:104-128 | for which owner ids each half holds, exactly |
| Trigger.RoutesAreSafe | app/routers/internal.py:197-222 | no notification asks for the removal of an object that a row names; what it queues is that object's recording; a name that is no audio key does neither |
| AccountDeletion.CancelAccountTasks | app/services/task_queue.py:72-117 | only tasks naming one of the events or one of the recordings go, after success none of them is left, and it succeeds exactly if the listing and each cancellation it needs work |
| AccountDeletion.DeleteUserAudio | app/services/storage.py:110-157 | only the user's audio goes, after success nothing is under the prefix, and it succeeds exactly if the id is acceptable, keys and listing are the user's and every call it needs works |
| AccountDeletion.Accounts.DeleteAuthUser | app/services/supabase_admin.py:28-74 | the identity goes or an error is reported; no Supabase is a success, a missing key an error |
| AccountDeletion.DeleteAccount | app/services/users.py:53-85 | however an attempt ends, crashes included, only the user's own things go: tasks about an event or a recording whose row is the user's, then audio, then the identity, then the rows; it succeeds exactly if the account is gone already, or is deletable and every call it needs works, and then nothing is left |
| AccountDeletion.AttemptsInOrder | app/services/users.py:53-85 | the same order for every user over any sequence of attempts by anyone, each failing or dying anywhere: audio goes only after the tasks, the identity after both, the rows after all |
| AccountDeletion.OthersUntouched | app/services/task_queue.py:86-96 | rows, identity, tasks and audio of a user without attempts are untouched |
| AccountDeletion.RetryCompletes | app/services/users.py:58-59 | after any attempts, a retry that every service serves completes exactly if the first could have; once the row is gone everything is |
| AccountDeletion.KeysConfirm | app/services/storage.py:117-119 | in every reachable database the stored keys are the user's own exactly if the id is not empty and has no slash, or there are none; so the check on them never fails for an acceptable id |
| AccountDeletion.StraysAreNobodys | app/services/storage.py:146-148 | a stray object under a prefix belongs to nobody, so no attempt ever removes it |
| AccountDeletion.StraysExist | app/services/storage.py:146-148 | `x.txt` or `a/b.m4a` under the prefix are such objects: the account is not deletable while one is there |
| TagUpsert.TagTable.UpsertTagByName | app/services/tags.py:12-37 | whatever other upserts do at each await, nothing is raised and the caller gets the one row of that name, made by it only if the name was free |
| TagUpsert.UpsertIsLinearizable | app/services/tags.py:12-37 | under any interleaving with crashes: one row per user and name, everybody answered gets the one of that user and name, at most one made it and its color is stored, earlier rows are untouched, nobody gets an error |
| TagUpsert.SomeoneMadeIt | app/services/tags.py:26-37 | if the name was free and all requests were answered, exactly one of them made the row |
| TagUpsert.LaterOnesFind | app/services/tags.py:22-24 | once anybody was answered, a request arriving later is given that row and makes none |
| TagReferences.WithoutCounts | app/services/tags.py:82-83 | the filter drops every occurrence of the one id and keeps the count of every other |
| TagReferences.WithoutParts | app/services/tags.py:83 | and keeps the order |
| TagReferences.DedupedRight | app/services/tagging.py:106 | the same ids, each once, in order of first occurrence |
| TagReferences.Store.DeleteTag | app/services/tags.py:71-85 | the tag goes, and with it its id from all events of its owner; every other event, column and tag is untouched |
| TagReferences.Store.RunTagging | app/services/tagging.py:65-109 | no-op exactly without event, with tags, or without any word in title and description; otherwise the model's answer to the text decides: busy and unavailable are retried, a bad answer or a foreign tag is given up on, and else only that event's empty list is filled, with the answer's ids, each once |
| TagReferences.Text | app/services/tagging.py:74 | the text is the title, a line break and the description, or the one of them that is not empty |
| TagReferences.Store.ListTags | app/services/tags.py:48-60 | only the user's tags, each once, and `limit` of them or all |
| TagReferences.OpsKeepSound | app/services/tagging.py:101-107 | references stay sound, user by user, over any sequence of deletions and taggings |
| TagReferences.ForgottenForGood | app/services/tags.py:74-76 | a deleted tag is never named again |

## Left out

- Users' edits of `description` or `tag_ids` during a collection or a tagging call: the code promises nothing there.
- Database session internals (identity map, expiry, stale reads): a commit is one step.
- The drain's `ids` filter: production never filters.
- The `done` outcome that `Outcome` documents: no path returns it.
- A box that breaks its contract, except that a job reported as neither done nor failed is left alone as in the code.
- The tagger's prompt, parsing and model call: an oracle that returns any list of ids or one of its error classes. Its
  own exceptions outside those classes escape and change nothing.
- Tag pages beyond 10 000: `Store.RunTagging` promises success for valid ids only up to that many tags, as the code does.
- Unicode whitespace: text counts as blank if it is made of spaces, tabs and line ends. Trimming of tag names happens
  before `upsert_tag_by_name` and is not modelled.
- Renaming and recoloring a tag, patching events and profiles, user provisioning and the demo data: field copies.
- The local-directory branch of audio reading and deletion, URL signing, HTTP, authentication, settings and logging.
- `Bucket.Delete` does not model the generation check; a failed precondition is one of the failing calls.
- A task body that names both an event and a recording of two different users: `OthersUntouched` speaks of bodies that
  name one thing, which is all the service creates.
- Primary-key clashes of random uuids, and a users row that is deleted while one of its tags is being upserted.
- The tagging dispatch that follows creating or editing a text event: best effort, and nothing depends on it.
