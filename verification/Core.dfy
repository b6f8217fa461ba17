/** Rows, jobs and the single-transaction writes of the transcription pipeline.
    Every function below is one committed transaction seen as a function on the two tables. */
module Core {
  import opened Wrappers

  type Id = string
  type Bytes = seq<bv8>

  const MAX_LIST_LIMIT: nat := 200
  const MAX_DRAIN_PAGES: nat := 10
  const MAX_TEXT: nat := 2000

  const NO_EVENT := "No event linked to recording"
  const TOO_LONG := "Recording is longer than the transcriber allows"
  const TOO_LARGE := "Audio is larger than the transcriber allows"
  const NO_AUDIO := "Audio object not found"
  const AUDIO_MISSING := "audio_missing"

  datatype RowState = Pending | Transcribing | Done | Failed

  datatype Recording = Recording(
    owner: Id, storageKey: string, durationSec: Option<nat>,
    state: RowState, error: Option<string>, updatedAt: int)

  datatype Event = Event(owner: Id, description: Option<string>, tagIds: seq<Id>)

  /** The recordings table, and the audio events keyed by the recording they carry
      (`events.recording_id` is unique, so the key is well defined). */
  datatype Db = Db(recs: map<Id, Recording>, events: map<Id, Event>)

  datatype Result = Transcript(text: Option<string>) | Failure(code: Option<string>)
  datatype Status = Queued | Running | Finished(result: Result)

  /** A job on the box. `serial` names the submission that created it; no code branches on it. */
  datatype Job = Job(serial: nat, audio: Bytes, status: Status)

  /** A job as one drain page reported it. */
  datatype Item = Item(id: Id, serial: nat, status: Status)

  datatype Settings = Settings(
    maxDurationS: nat, maxUploadBytes: nat,
    staleSubmitted: nat, stalePending: nat, batchLimit: nat)

  // --- the box's table ---------------------------------------------------------

  function Terminal(jobs: map<Id, Job>): set<Id> {
    set id | id in jobs && jobs[id].status.Finished?
  }

  function ItemOf(jobs: map<Id, Job>, id: Id): Item
    requires id in jobs
  {
    Item(id, jobs[id].serial, jobs[id].status)
  }

  predicate DistinctIds(page: seq<Item>) {
    forall i, j | 0 <= i < j < |page| :: page[i].id != page[j].id
  }

  function Min(a: int, b: int): int {
    if a <= b then a else b
  }

  /** What an honest box may answer to an unfiltered drain: `min(limit, waiting)` of its terminal jobs,
      in any order, each exactly as it stands. */
  predicate IsPage(jobs: map<Id, Job>, page: seq<Item>) {
    && DistinctIds(page)
    && (forall it | it in page :: it.id in Terminal(jobs) && it == ItemOf(jobs, it.id))
    && |page| == Min(MAX_LIST_LIMIT, |Terminal(jobs)|)
  }

  function Ids(items: seq<Item>): set<Id> {
    set it | it in items :: it.id
  }

  // --- one reply of the box ----------------------------------------------------

  datatype Refusal = Busy(retryAfter: Option<nat>) | Unauthorized | Conflict | Rejected | TooLarge | Unexpected

  /** How one call to the box goes: answered; never arrived; arrived and took effect although the caller
      saw a transport error; or turned away with an error status and no effect. */
  datatype Wire = Answered | Lost | AnswerLost | Turned(why: Refusal)
  {
    predicate TakesEffect() {
      Answered? || AnswerLost?
    }
  }

  /** The exception classes that `run_transcription` treats as permanent. */
  predicate Hard(why: Refusal) {
    why.Rejected? || why.TooLarge? || why.Conflict?
  }

  function ErrorName(why: Refusal): string {
    match why
    case Rejected => "AudioRejectedError"
    case TooLarge => "AudioTooLargeError"
    case Conflict => "JobConflictError"
    case Busy(_) => "EndpointBusyError"
    case Unauthorized => "UnauthorizedError"
    case Unexpected => "TranscriberError"
  }

  // --- rows --------------------------------------------------------------------

  predicate Claimable(db: Db, id: Id) {
    id in db.recs && (db.recs[id].state == Pending || db.recs[id].state == Failed)
  }

  function Put(db: Db, id: Id, rec: Recording): Db {
    db.(recs := db.recs[id := rec])
  }

  function ClaimRow(db: Db, id: Id, now: int): Db
    requires Claimable(db, id)
  {
    Put(db, id, db.recs[id].(state := Transcribing, updatedAt := now))
  }

  function Truncated(error: string): string {
    if |error| <= MAX_TEXT then error else error[..MAX_TEXT]
  }

  /** Unconditional, whatever state the row is in; no row, no effect. */
  function MarkFailed(db: Db, id: Id, error: string, now: int): Db {
    if id in db.recs
    then Put(db, id, db.recs[id].(state := Failed, error := Some(Truncated(error)), updatedAt := now))
    else db
  }

  /** Unconditional too, and it leaves `error` alone. */
  function RevertPending(db: Db, id: Id, now: int): Db {
    if id in db.recs then Put(db, id, db.recs[id].(state := Pending, updatedAt := now)) else db
  }

  function WriteTranscript(db: Db, id: Id, text: string, now: int): Db
    requires id in db.recs && id in db.events
  {
    Db(db.recs[id := db.recs[id].(state := Done, error := None, updatedAt := now)],
       db.events[id := db.events[id].(description := Some(text))])
  }

  // --- persisting one drained job ----------------------------------------------

  datatype Verdict = Wrote(text: string) | GaveUp(reason: string) | Requeued | AlreadyDone | NoRecording | Refused

  function TextOf(text: Option<string>): string {
    if text.Some? then text.value else ""
  }

  function ReasonOf(code: Option<string>): string {
    if code.Some? && code.value != "" then code.value else "transcription_failed"
  }

  // What results and errors mean, spelled out. No operation calls these; contracts and theorems use them.

  /** The box finished the job with this text, or with none. */
  predicate Bears(status: Status, text: string) {
    status == Finished(Transcript(Some(text))) || (status == Finished(Transcript(None)) && text == "")
  }

  /** The box finished the job with this failure code, or with none. */
  predicate Blames(status: Status, reason: string) {
    if reason == "transcription_failed"
    then status == Finished(Failure(None)) || status == Finished(Failure(Some(""))) || status == Finished(Failure(Some(reason)))
    else status == Finished(Failure(Some(reason))) && reason != "" && reason != "audio_missing"
  }

  /** The first 2000 characters of it, or all of it if it has no more. */
  predicate CutTo(error: string, full: string) {
    error <= full && |error| == Min(|full|, 2000)
  }

  /** The row is done and its event shows the text; nothing else has changed. */
  predicate Shows(db: Db, db': Db, id: Id, text: string, now: int) {
    && id in db.recs && id in db.events
    && var rec, event := db.recs[id], db.events[id];
       db' == Db(db.recs[id := Recording(rec.owner, rec.storageKey, rec.durationSec, Done, None, now)],
                 db.events[id := Event(event.owner, Some(text), event.tagIds)])
  }

  /** The row has failed for this reason; nothing else has changed. */
  predicate FailsFor(db: Db, db': Db, id: Id, reason: string, now: int) {
    && id in db.recs && id in db'.recs && db'.recs[id].error.Some? && CutTo(db'.recs[id].error.value, reason)
    && var rec := db.recs[id];
       db' == Db(db.recs[id := Recording(rec.owner, rec.storageKey, rec.durationSec, Failed, db'.recs[id].error, now)],
                 db.events)
  }

  /** The row is pending again; nothing else has changed, its error included. */
  predicate GoesBack(db: Db, db': Db, id: Id, now: int) {
    && id in db.recs
    && var rec := db.recs[id];
       db' == Db(db.recs[id := Recording(rec.owner, rec.storageKey, rec.durationSec, Pending, rec.error, now)], db.events)
  }

  /** The row is claimed; nothing else has changed. */
  predicate GetsClaimed(db: Db, db': Db, id: Id, now: int) {
    && id in db.recs
    && var rec := db.recs[id];
       db' == Db(db.recs[id := Recording(rec.owner, rec.storageKey, rec.durationSec, Transcribing, rec.error, now)], db.events)
  }

  /** What `_persist` decides about a job, given the tables it finds. `Refused` is the write that cannot
      commit: a transcript longer than the column, or a job that is not terminal. */
  function Judge(db: Db, id: Id, status: Status): Verdict {
    if id !in db.recs then NoRecording else
    match status
    case Finished(Failure(code)) =>
      if code == Some(AUDIO_MISSING) then Requeued else GaveUp(ReasonOf(code))
    case Finished(Transcript(text)) =>
      if id !in db.events then GaveUp(NO_EVENT)
      else if db.recs[id].state == Done then AlreadyDone
      else if |TextOf(text)| > MAX_TEXT then Refused
      else Wrote(TextOf(text))
    case _ => Refused
  }

  function Commit(db: Db, id: Id, v: Verdict, now: int): Db
    requires v.Wrote? ==> id in db.recs && id in db.events
  {
    match v
    case Wrote(text) => WriteTranscript(db, id, text, now)
    case GaveUp(reason) => MarkFailed(db, id, reason, now)
    case Requeued => RevertPending(db, id, now)
    case _ => db
  }

  /** What may go wrong while one job is persisted: nothing; an exception before the commit, rolled back;
      or an exception other than `TaskQueueError` from the tagging dispatch that follows a written transcript. */
  datatype Fault = Clean | RolledBack | DispatchRaised

  /** Whether the verdict's write commits. */
  predicate Commits(v: Verdict, fault: Fault) {
    !v.Refused? && !fault.RolledBack?
  }

  /** Whether tagging is dispatched at all: only for a fresh transcript of an event without tags. */
  predicate Dispatches(db: Db, id: Id, v: Verdict) {
    v.Wrote? && id in db.events && db.events[id].tagIds == []
  }

  /** Whether `_persist` answers True, so that the job may be acknowledged. */
  predicate Ackable(db: Db, id: Id, v: Verdict, fault: Fault) {
    Commits(v, fault) && !(fault.DispatchRaised? && Dispatches(db, id, v))
  }

  // --- the sweep's SELECT ... ORDER BY updated_at LIMIT n ----------------------

  function Stale(recs: map<Id, Recording>, state: RowState, cutoff: int): set<Id> {
    set id | id in recs && recs[id].state == state && recs[id].updatedAt < cutoff
  }

  /** `batch` is a correct answer to the query: the `limit` oldest stale rows, oldest first, ties broken anyhow. */
  predicate IsBatch(recs: map<Id, Recording>, state: RowState, cutoff: int, limit: nat, batch: seq<Id>) {
    && Distinct(batch)
    && (forall i | 0 <= i < |batch| :: batch[i] in Stale(recs, state, cutoff))
    && |batch| == Min(limit, |Stale(recs, state, cutoff)|)
    && (forall i, j | 0 <= i < j < |batch| :: recs[batch[i]].updatedAt <= recs[batch[j]].updatedAt)
    && (forall other | other in Stale(recs, state, cutoff) && other !in batch && batch != [] ::
          recs[batch[|batch| - 1]].updatedAt <= recs[other].updatedAt)
  }
}
