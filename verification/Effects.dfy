/** What whole executions do to the tables, the box and the queue, as far as recovery needs to know. */
module Effects {
  import opened Wrappers
  import opened Core
  import opened Protocol
  import opened Paths
  import opened Service
  import Collection
  import Confluence
  import Submission
  import SweepPass

  // --- how a recording stands ------------------------------------------------------------------

  /** The box has a finished result of this recording that cannot be stored as things are. */
  predicate RefusedFor(w: World, id: Id) {
    id in w.box && w.box[id].status.Finished? && Judge(w.db, id, w.box[id].status) == Refused
  }

  function Refusable(w: World): set<Id> {
    set id | id in w.box && RefusedFor(w, id)
  }

  predicate Acceptable(w: World, id: Id) {
    Submission.Acceptable(w.db, w.objects, w.cfg, id)
  }

  /** The box has no job for the recording, or one for other bytes than the bucket has. */
  predicate NotSubmitted(w: World, id: Id)
    requires Acceptable(w, id)
  {
    id in w.box ==> w.box[id].audio != w.objects[w.db.recs[id].storageKey]
  }

  /** The finished results that can be stored. */
  function Ready(w: World): set<Id> {
    Collection.Storable(w.db, w.box)
  }

  /** The state in which persisting a result leaves the row. */
  function StateAfter(v: Verdict): RowState {
    match v
    case GaveUp(_) => Failed
    case Requeued => Pending
    case _ => Done
  }

  // --- everything but attempts and new tasks -----------------------------------------------------

  /** The row is as it was, or was moved and stamped meanwhile, not to `transcribing`; then its job is not on the box, and
      was there before or the row was waiting for it. */
  predicate RowOnward(w: World, w': World, id: Id)
    requires id in w.db.recs && id in w'.db.recs
  {
    var rec, rec' := w.db.recs[id], w'.db.recs[id];
    || rec' == rec
    || (&& Collection.Restamped(rec, rec', w.now, w'.now) && w.now <= rec'.updatedAt && !rec'.state.Transcribing?
        && id !in w'.box && (id in w.box || rec.state == Transcribing))
  }

  /** A job is as it was, or was worked off and fits; a job that is gone was no refused one, and nobody waits for it. */
  predicate JobOnward(w: World, w': World, id: Id)
    requires id in w.box
  {
    if id in w'.box then
      || w'.box[id] == w.box[id]
      || (&& !w.box[id].status.Finished? && w'.box[id].status.Finished? && w'.box[id].audio == w.box[id].audio
          && Fitting(w'.box[id].status.result, false))
    else !RefusedFor(w, id) && (id in w'.db.recs ==> w'.db.recs[id].state != Transcribing)
  }

  /** No task is lost, and none comes for a row with a refused result that is not pending. */
  predicate QueueOnward(w: World, w': World) {
    && w.queue <= w'.queue
    && forall id | id in w.box && RefusedFor(w, id) && w.db.recs[id].state != Pending :: id in w'.queue ==> id in w.queue
  }

  ghost predicate Onward(w: World, w': World) {
    && w'.cfg == w.cfg && w'.objects == w.objects && w'.procs == w.procs && w.now <= w'.now
    && w'.db.recs.Keys == w.db.recs.Keys && w'.db.events.Keys == w.db.events.Keys && w'.box.Keys <= w.box.Keys
    && (forall id | id in w.db.recs :: RowOnward(w, w', id))
    && (forall id | id in w.box :: JobOnward(w, w', id))
    && QueueOnward(w, w')
  }

  // --- a collection ----------------------------------------------------------------------------

  /** Exactly `acked` was stored and taken off the box. */
  ghost predicate Gives(w: World, w': World, acked: set<Id>) {
    && w' == w.(now := w'.now, db := w'.db, box := w.box - acked, log := w'.log) && acked <= Ready(w)
    && w'.db.recs.Keys == w.db.recs.Keys && Ready(w') == Ready(w) - acked
    && (forall id | id in w.db.recs ::
          if id in acked then w'.db.recs[id].state == StateAfter(Judge(w.db, id, w.box[id].status))
          else w'.db.recs[id] == w.db.recs[id])
  }

  lemma PoisonIsRefused(w: World)
    ensures Collection.Poison(w.db, w.box) == Refusable(w)
    ensures |Terminal(w.box)| == |Ready(w)| + |Refusable(w)|
  {
    assert Collection.Poison(w.db, w.box) == Refusable(w);
    SetSizes(Ready(w), Terminal(w.box));
  }

  lemma StoredRows(w: World, w': World, acked: set<Id>, id: Id)
    requires Collection.Stored(w.db, w.box, w'.db, w'.box, acked) && id in w.db.recs
    ensures id in w'.db.recs
    ensures if id in acked then w'.db.recs[id].state == StateAfter(Judge(w.db, id, w.box[id].status))
            else w'.db.recs[id] == w.db.recs[id]
  {
    if id in acked {
      assert Collection.DecidedAs(w.db, w'.db, ItemOf(w.box, id));
    } else {
      assert Collection.SameAt(w.db, w'.db, id);
    }
  }

  lemma StoredGives(w: World, w': World, acked: set<Id>)
    requires Collection.Stored(w.db, w.box, w'.db, w'.box, acked)
    requires w'.db.recs.Keys == w.db.recs.Keys
    requires w' == w.(now := w'.now, db := w'.db, box := w'.box, log := w'.log)
    ensures Gives(w, w', acked)
  {
    Collection.StoredLeaves(w.db, w.box, w'.db, w'.box, acked);
    forall id | id in w.db.recs
      ensures if id in acked then w'.db.recs[id].state == StateAfter(Judge(w.db, id, w.box[id].status))
              else w'.db.recs[id] == w.db.recs[id]
    {
      StoredRows(w, w', acked, id);
    }
  }

  lemma GivesOnward(w: World, w': World, acked: set<Id>)
    requires Gives(w, w', acked) && Collection.RowsRestamped(w.db, w'.db, w.now, w'.now) && w.now <= w'.now
    ensures Onward(w, w')
  {
  }

  lemma CollectStores(w: World, w': World) returns (acked: set<Id>)
    requires Collects(w, w')
    ensures Collection.Stored(w.db, w.box, w'.db, w'.box, acked)
    ensures Collection.RowsRestamped(w.db, w'.db, w.now, w'.now) && w.now <= w'.now
    ensures w' == w.(now := w'.now, db := w'.db, box := w'.box, log := w'.log)
    ensures exists pages: nat ::
              Collection.FinalCounts(|Terminal(w.box)|, |Collection.Poison(w.db, w.box)|, |acked|, pages)
  {
    var p, visits, last, s' :| CollectsBy(w, p, visits, last, s', w');
    var s := Collection.Outset(w);
    Collection.CollectionCounts(s, FAIR, visits, last, s');
    Collection.VisitsRestamp(s, FAIR, visits);
    acked := Collection.Elements(s'.acked);
  }

  /** What is stored is stored and gone, and something is unless refused results fill the pages. */
  ghost predicate CollectsSome(w: World, w': World, acked: set<Id>) {
    && Gives(w, w', acked) && Onward(w, w')
    && (|Refusable(w)| < MAX_LIST_LIMIT && Ready(w) != {} ==> acked != {})
  }

  /** With fewer refused results than a page has places, a whole collection stores at least one of those that can be,
      whatever its pages show. */
  lemma CollectGives(w: World, w': World) returns (acked: set<Id>)
    requires Collects(w, w')
    ensures CollectsSome(w, w', acked)
  {
    acked := CollectStores(w, w');
    StoredGives(w, w', acked);
    GivesOnward(w, w', acked);
    PoisonIsRefused(w);
    var pages: nat :| Collection.FinalCounts(|Terminal(w.box)|, |Collection.Poison(w.db, w.box)|, |acked|, pages);
    if |Refusable(w)| < MAX_LIST_LIMIT && Ready(w) != {} {
      SomeStored(|Terminal(w.box)|, |Refusable(w)|, |acked|, pages);
    }
  }

  lemma SomeStored(n: nat, k: nat, a: nat, pages: nat)
    requires Collection.FinalCounts(n, k, a, pages) && k < MAX_LIST_LIMIT && k < n
    ensures a > 0
  {
  }

  // --- a sweep ---------------------------------------------------------------------------------

  /** From `began` on the lost rows of one batch were taken back and sent, and another batch was sent. */
  ghost predicate Resent(w: World, w': World, began: int, stuck: seq<Id>, pending: seq<Id>) {
    && w' == w.(now := w'.now, db := w'.db, log := w'.log, queue := w'.queue) && w.now <= began
    && w'.db.recs.Keys == w.db.recs.Keys
    && IsBatch(w.db.recs, Transcribing, began - w.cfg.staleSubmitted, w.cfg.batchLimit, stuck)
    && IsBatch(w'.db.recs, RowState.Pending, began - w.cfg.stalePending, w.cfg.batchLimit, pending)
    && (forall id | id in w.db.recs ::
          if id in stuck && id !in w.box then w'.db.recs[id].state == Pending else w'.db.recs[id] == w.db.recs[id])
    && (forall id | id in stuck && id !in w.box :: id in w'.queue)
    && (forall id | id in pending :: id in w'.queue)
  }

  lemma TakenGives(w: World, pass: SweepPass.Pass, db': Db)
    requires SweepPass.Passes(w.db, w.box, w.now, w.cfg, CLEAR, pass, db')
    ensures db'.events == w.db.events && db'.recs.Keys == w.db.recs.Keys && w.now <= Collection.Last(pass.began, pass.ts)
    ensures forall id | id in w.db.recs ::
              if id in pass.stuck && id !in w.box
              then SweepPass.BackBetween(w.db.recs[id], db'.recs[id], w.now, Collection.Last(pass.began, pass.ts))
              else db'.recs[id] == w.db.recs[id]
  {
    SweepPass.TakenFrame(w.db, w.box, CLEAR.look, pass.stuck, pass.ts);
    forall id | id in w.db.recs
      ensures if id in pass.stuck && id !in w.box
              then SweepPass.BackBetween(w.db.recs[id], db'.recs[id], w.now, Collection.Last(pass.began, pass.ts))
              else db'.recs[id] == w.db.recs[id]
    {
      SweepPass.TakenAt(w.db, w.box, CLEAR.look, pass.stuck, pass.ts, w.now, Collection.Last(pass.began, pass.ts), id);
    }
  }

  lemma TakenOnward(w: World, w': World, stuck: seq<Id>)
    requires w' == w.(now := w'.now, db := w'.db, log := w'.log, queue := w'.queue) && w.now <= w'.now
    requires w'.db.events == w.db.events && w'.db.recs.Keys == w.db.recs.Keys
    requires forall id | id in stuck :: id in w.db.recs ==> w.db.recs[id].state == Transcribing
    requires forall id | id in w.db.recs ::
               if id in stuck && id !in w.box then SweepPass.BackBetween(w.db.recs[id], w'.db.recs[id], w.now, w'.now)
               else w'.db.recs[id] == w.db.recs[id]
    requires QueueOnward(w, w')
    ensures Onward(w, w')
  {
    forall id | id in w.db.recs ensures RowOnward(w, w', id) {
    }
  }

  lemma QueuedToo(queue: multiset<Id>, lost: seq<Id>, pending: seq<Id>, all: multiset<Id>)
    requires all == queue + multiset(lost) + multiset(pending)
    ensures queue <= all && forall id :: id in all <==> id in queue || id in lost || id in pending
  {
  }

  lemma TasksOut(w: World, w': World, pass: SweepPass.Pass)
    requires w' == SweepPass.Redriven(w, CLEAR, pass, w'.db)
    ensures w.queue <= w'.queue
    ensures forall id :: id in w'.queue <==> id in w.queue || (id in pass.stuck && id !in w.box) || id in pass.pending
  {
    var lost := SweepPass.Lost(w.box, CLEAR.look, pass.stuck);
    SweepPass.LostAre(w.box, CLEAR.look, pass.stuck);
    SweepPass.AllTasks(lost, CLEAR.resend);
    SweepPass.AllTasks(pass.pending, CLEAR.send);
    QueuedToo(w.queue, lost, pass.pending, w'.queue);
  }

  /** The same, as the sweep's own specification has it. */
  ghost predicate Passed(w: World, w': World, began: int, stuck: seq<Id>, pending: seq<Id>) {
    && w' == w.(now := w'.now, db := w'.db, log := w'.log, queue := w'.queue) && w.now <= began && w.now <= w'.now
    && w'.db.events == w.db.events && w'.db.recs.Keys == w.db.recs.Keys
    && IsBatch(w.db.recs, Transcribing, began - w.cfg.staleSubmitted, w.cfg.batchLimit, stuck)
    && IsBatch(w'.db.recs, RowState.Pending, began - w.cfg.stalePending, w.cfg.batchLimit, pending)
    && (forall id | id in w.db.recs ::
          if id in stuck && id !in w.box then SweepPass.BackBetween(w.db.recs[id], w'.db.recs[id], w.now, w'.now)
          else w'.db.recs[id] == w.db.recs[id])
    && w.queue <= w'.queue
    && (forall id :: id in w'.queue <==> id in w.queue || (id in stuck && id !in w.box) || id in pending)
  }

  lemma RedriveIsPassed(w: World, w': World, pass: SweepPass.Pass)
    requires SweepPass.Passes(w.db, w.box, w.now, w.cfg, CLEAR, pass, w'.db)
    requires w' == SweepPass.Redriven(w, CLEAR, pass, w'.db)
    ensures Passed(w, w', pass.began, pass.stuck, pass.pending)
  {
    TakenGives(w, pass, w'.db);
    TasksOut(w, w', pass);
  }

  lemma PassedOn(w: World, w': World, began: int, stuck: seq<Id>, pending: seq<Id>)
    requires Passed(w, w', began, stuck, pending)
    ensures Onward(w, w')
  {
    BatchRows(w.db.recs, Transcribing, began - w.cfg.staleSubmitted, w.cfg.batchLimit, stuck);
    TakenOnward(w, w', stuck);
  }

  lemma PassedResent(w: World, w': World, began: int, stuck: seq<Id>, pending: seq<Id>)
    requires Passed(w, w', began, stuck, pending)
    ensures Resent(w, w', began, stuck, pending)
  {
  }

  lemma RedriveGives(w: World, w': World) returns (began: int, stuck: seq<Id>, pending: seq<Id>)
    requires Redrives(w, w')
    ensures Onward(w, w') && Resent(w, w', began, stuck, pending)
  {
    var pass :| RedrivesBy(w, pass, w');
    RedriveIsPassed(w, w', pass);
    began, stuck, pending := pass.began, pass.stuck, pass.pending;
    PassedOn(w, w', began, stuck, pending);
    PassedResent(w, w', began, stuck, pending);
  }

  lemma BatchRows(recs: map<Id, Recording>, state: RowState, cutoff: int, limit: nat, batch: seq<Id>)
    requires IsBatch(recs, state, cutoff, limit, batch)
    ensures forall id | id in batch :: id in recs && recs[id].state == state && recs[id].updatedAt < cutoff
  {
    assert forall i | 0 <= i < |batch| :: batch[i] in Stale(recs, state, cutoff);
  }

  // --- an attempt ------------------------------------------------------------------------------

  /** Everything but the recording itself is as it was; it ends `transcribing` with these bytes on the box if the audio is
      acceptable, and `failed` otherwise. */
  ghost predicate Tries(w: World, w': World, id: Id) {
    && id in w.db.recs && id in w'.db.recs && w.now <= w'.now
    && w' == w.(now := w'.now, db := w'.db, box := w'.box, serial := w'.serial, log := w'.log)
    && w'.db.events == w.db.events && w'.db.recs.Keys == w.db.recs.Keys
    && (forall r | r in w.db.recs && r != id :: w'.db.recs[r] == w.db.recs[r])
    && (forall r | r != id :: (r in w'.box <==> r in w.box) && (r in w.box ==> w'.box[r] == w.box[r]))
    && Collection.Restamped(w.db.recs[id], w'.db.recs[id], w.now, w'.now) && w.now <= w'.db.recs[id].updatedAt
    && if Acceptable(w, id)
       then w'.db.recs[id].state == Transcribing && HandedOver(w, w', id)
       else w'.db.recs[id].state == Failed && w'.box == w.box
  }

  /** The box has the job it had, or a fresh one if it had none for these bytes. */
  predicate HandedOver(w: World, w': World, id: Id)
    requires Acceptable(w, id)
  {
    && id in w'.box
    && if NotSubmitted(w, id) then w'.box[id].status == Queued && w'.box[id].audio == w.objects[w.db.recs[id].storageKey]
       else w'.box[id] == w.box[id]
  }

  lemma HandsOver(w: World, id: Id)
    requires Acceptable(w, id)
    ensures var h := Submission.HandOver(w.box, w.serial, id, w.objects[w.db.recs[id].storageKey], CALM);
            h.reply.Ok? && HandedOver(w, w.(box := h.jobs), id)
  {
  }

  lemma RestIsSame<T>(m: map<Id, T>, m': map<Id, T>, id: Id)
    requires m' - {id} == m - {id}
    ensures forall r | r != id :: (r in m' <==> r in m) && (r in m ==> m'[r] == m[r])
  {
    forall r | r != id ensures (r in m' <==> r in m) && (r in m ==> m'[r] == m[r]) {
      assert r in m' <==> r in m' - {id};
      assert r in m <==> r in m - {id};
    }
  }

  lemma TriedGives(w: World, id: Id, t0: int, t: int)
    requires Claimable(w.db, id) && w.now <= t0 <= t
    ensures var e := Submission.Tried(ClaimRow(w.db, id, t0), w.box, w.serial, w.objects, w.cfg, id, w.db.recs[id], CALM, t);
            && id in e.db.recs && Collection.Restamped(w.db.recs[id], e.db.recs[id], w.now, t)
            && w.now <= e.db.recs[id].updatedAt
            && if Acceptable(w, id) then e.db.recs[id].state == Transcribing && HandedOver(w, w.(box := e.jobs), id)
               else e.db.recs[id].state == Failed && e.jobs == w.box
  {
    if Acceptable(w, id) {
      HandsOver(w, id);
    }
  }

  lemma AttemptGives(w: World, w': World, id: Id)
    requires Claimable(w.db, id) && Attempts(w, id, w')
    ensures Tries(w, w', id)
  {
    var t0, t :| w.now <= t0 <= t && w' == Submission.Attempted(w, id, CALM, t0, t);
    Submission.OutcomeAgrees(w.db, w.box, w.serial, w.objects, w.cfg, id, CALM, t0, t);
    TriedGives(w, id, t0, t);
    RestIsSame(w.db.recs, w'.db.recs, id);
    RestIsSame(w.box, w'.box, id);
  }

  // --- the other moves -------------------------------------------------------------------------

  lemma WaitOnward(w: World, to: int)
    requires w.now <= to
    ensures Onward(w, w.(now := to))
  {
  }

  lemma BoxWorkOnward(w: World, id: Id, result: Result)
    requires id in w.box && !w.box[id].status.Finished? && Fitting(result, false)
    ensures Onward(w, WorkedOff(w, id, result))
  {
  }

  // --- what stays so -----------------------------------------------------------------------------

  /** Moving onward neither adds a refused result nor takes one away, and leaves its row alone. */
  lemma RefusedStays(w: World, w': World, id: Id)
    requires Onward(w, w')
    ensures RefusedFor(w', id) <==> RefusedFor(w, id)
    ensures RefusedFor(w, id) ==> w'.box[id] == w.box[id] && w'.db.recs[id] == w.db.recs[id]
  {
  }

  lemma RefusableStays(w: World, w': World)
    requires Onward(w, w')
    ensures Refusable(w') == Refusable(w)
  {
    forall id ensures RefusedFor(w', id) <==> RefusedFor(w, id) {
      RefusedStays(w, w', id);
    }
  }

  lemma AcceptableStays(w: World, w': World, id: Id)
    requires Onward(w, w')
    ensures Acceptable(w', id) <==> Acceptable(w, id)
    ensures id in w.db.recs ==> w'.db.recs[id].storageKey == w.db.recs[id].storageKey
  {
    if id in w.db.recs {
      assert RowOnward(w, w', id);
    }
  }

  lemma OnwardRow(w: World, mid: World, w': World, id: Id)
    requires Onward(w, mid) && Onward(mid, w') && id in w.db.recs
    ensures RowOnward(w, w', id)
  {
    assert RowOnward(w, mid, id) && RowOnward(mid, w', id);
  }

  lemma OnwardJob(w: World, mid: World, w': World, id: Id)
    requires Onward(w, mid) && Onward(mid, w') && id in w.box
    ensures JobOnward(w, w', id)
  {
    assert JobOnward(w, mid, id);
    RefusedStays(w, mid, id);
    if id in w.db.recs {
      assert RowOnward(mid, w', id);
    }
  }

  lemma OnwardThen(w: World, mid: World, w': World)
    requires Onward(w, mid) && Onward(mid, w')
    ensures Onward(w, w')
  {
    forall id | id in w.db.recs ensures RowOnward(w, w', id) {
      OnwardRow(w, mid, w', id);
    }
    forall id | id in w.box ensures JobOnward(w, w', id) {
      OnwardJob(w, mid, w', id);
    }
    forall id | id in w.box && RefusedFor(w, id) && w.db.recs[id].state != Pending ensures id in w'.queue ==> id in w.queue {
      RefusedStays(w, mid, id);
    }
  }

  // --- how moves come out ------------------------------------------------------------------------

  ghost predicate CollectsWell(w: World, w': World) {
    exists acked :: CollectsSome(w, w', acked)
  }

  ghost predicate RedrivesWell(w: World, w': World) {
    exists began, stuck, pending :: Onward(w, w') && Resent(w, w', began, stuck, pending)
  }

  ghost predicate SweepsWell(w: World, w': World) {
    exists mid :: CollectsWell(w, mid) && RedrivesWell(mid, w')
  }

  /** What a move that came out as `w'` has done. */
  ghost predicate Comes(w: World, m: Move, w': World, own: Id)
    requires Can(w, m)
  {
    match m
    case Wait(to) => w' == w.(now := to)
    case BoxWork(id) => exists result :: Fitting(result, id == own) && w' == WorkedOff(w, id, result)
    case Collect => CollectsWell(w, w')
    case FullSweep => SweepsWell(w, w')
    case Attempt(id) => Tries(w, w', id)
    case NewTask(id) => w' == WithTask(w, id, true)
    case Lapse(id) => w' == w.(box := w.box - {id})
  }

  /** All that recovery needs of an honest fate. */
  ghost predicate Orderly(fate: Fate, own: Id) {
    forall w, m | Can(w, m) :: Comes(w, m, fate(w, m), own)
  }

  lemma CollectComes(w: World, w': World)
    requires Collects(w, w')
    ensures CollectsWell(w, w')
  {
    var acked := CollectGives(w, w');
  }

  lemma RedriveComes(w: World, w': World)
    requires Redrives(w, w')
    ensures RedrivesWell(w, w')
  {
    var began, stuck, pending := RedriveGives(w, w');
  }

  lemma SweepComes(w: World, mid: World, w': World)
    requires Collects(w, mid) && Redrives(mid, w')
    ensures SweepsWell(w, w')
  {
    CollectComes(w, mid);
    RedriveComes(mid, w');
  }

  lemma MoveComes(w: World, m: Move, w': World, own: Id)
    requires Can(w, m) && Could(w, m, w', own)
    ensures Comes(w, m, w', own)
  {
    match m
    case Collect => CollectComes(w, w');
    case FullSweep =>
      var mid :| Collects(w, mid) && Redrives(mid, w');
      SweepComes(w, mid, w');
    case Attempt(id) => AttemptGives(w, w', id);
    case _ =>
  }

  lemma HonestIsOrderly(fate: Fate, own: Id)
    requires Honest(fate, own)
    ensures Orderly(fate, own)
  {
    forall w, m | Can(w, m) ensures Comes(w, m, fate(w, m), own) {
      MoveComes(w, m, fate(w, m), own);
    }
  }

  lemma Answer(w: World, m: Move, fate: Fate, own: Id)
    requires Orderly(fate, own) && Can(w, m)
    ensures Comes(w, m, fate(w, m), own)
  {
  }
}
