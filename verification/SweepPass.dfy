/** The sweep: collect, then send again whatever fell out of the pipeline. */
module SweepPass {
  import opened Wrappers
  import opened Core
  import opened Protocol
  import opened Paths
  import opened Transcriber
  import opened Session
  import opened Queue
  import Collection
  import SweepBounds

  /** How lookups and enqueues go during one sweep. */
  datatype Sky = Sky(look: Id -> Wire, resend: Id -> bool, send: Id -> bool)

  // --- what a pass does --------------------------------------------------------------------

  /** The box answered that it does not have the job. */
  predicate Missing(jobs: map<Id, Job>, look: Id -> Wire, id: Id) {
    look(id).Answered? && id !in jobs
  }

  /** The rows the stuck pass takes back, in order. */
  function Lost(jobs: map<Id, Job>, look: Id -> Wire, rows: seq<Id>): seq<Id> {
    if rows == [] then [] else
    var n := |rows| - 1;
    Lost(jobs, look, rows[..n]) + if Missing(jobs, look, rows[n]) then [rows[n]] else []
  }

  /** The tables after the stuck pass, row `k` being looked at by time `ts[k]`. */
  function Taken(db: Db, jobs: map<Id, Job>, look: Id -> Wire, rows: seq<Id>, ts: seq<int>): Db
    requires |ts| == |rows|
  {
    if rows == [] then db else
    var n := |rows| - 1;
    var before := Taken(db, jobs, look, rows[..n], ts[..n]);
    if Missing(jobs, look, rows[n]) then RevertPending(before, rows[n], ts[n]) else before
  }

  /** The tasks that get out, in order. */
  function Tasks(ids: seq<Id>, up: Id -> bool): seq<Id> {
    if ids == [] then [] else Tasks(ids[..|ids| - 1], up) + Sent(ids[|ids| - 1], up(ids[|ids| - 1]))
  }

  lemma TasksThen(ids: seq<Id>, id: Id, up: Id -> bool)
    ensures Tasks(ids + [id], up) == Tasks(ids, up) + Sent(id, up(id))
  {
  }

  /** With the queue up, every task gets out. */
  lemma {:induction false} AllTasks(ids: seq<Id>, up: Id -> bool)
    requires forall id :: up(id)
    ensures Tasks(ids, up) == ids
    decreases |ids|
  {
    if ids != [] {
      AllTasks(ids[..|ids| - 1], up);
    }
  }

  /** The tasks that get out are among the ids, each as often as there. */
  lemma {:induction false} TasksAmong(ids: seq<Id>, up: Id -> bool)
    ensures forall id | id in Tasks(ids, up) :: id in ids
    ensures Distinct(ids) ==> Distinct(Tasks(ids, up))
    ensures |Tasks(ids, up)| <= |ids|
    decreases |ids|
  {
    if ids != [] {
      var n := |ids| - 1;
      TasksAmong(ids[..n], up);
      var tasks := Tasks(ids[..n], up);
      forall k | Distinct(ids) && 0 <= k < |tasks| ensures tasks[k] != ids[n] {
        assert tasks[k] in ids[..n];
      }
    }
  }

  lemma {:induction false} LostAre(jobs: map<Id, Job>, look: Id -> Wire, rows: seq<Id>)
    ensures forall id :: id in Lost(jobs, look, rows) <==> id in rows && Missing(jobs, look, id)
    ensures Distinct(rows) ==> Distinct(Lost(jobs, look, rows))
    ensures |Lost(jobs, look, rows)| <= |rows|
    decreases |rows|
  {
    if rows != [] {
      var n := |rows| - 1;
      LostAre(jobs, look, rows[..n]);
      assert rows == rows[..n] + [rows[n]];
      var lost := Lost(jobs, look, rows[..n]);
      forall k | Distinct(rows) && 0 <= k < |lost| ensures lost[k] != rows[n] {
        assert lost[k] in rows[..n];
      }
    }
  }

  /** The row was sent back to `pending` at some time between these two, and nothing else about it changed. */
  predicate BackBetween(rec: Recording, rec': Recording, since: int, until: int) {
    rec' == rec.(state := Pending, updatedAt := rec'.updatedAt) && since <= rec'.updatedAt <= until
  }

  lemma {:induction false} TakenFrame(db: Db, jobs: map<Id, Job>, look: Id -> Wire, rows: seq<Id>, ts: seq<int>)
    requires |ts| == |rows|
    ensures var db' := Taken(db, jobs, look, rows, ts); db'.events == db.events && db'.recs.Keys == db.recs.Keys
    decreases |rows|
  {
    if rows != [] {
      TakenFrame(db, jobs, look, rows[..|rows| - 1], ts[..|rows| - 1]);
    }
  }

  /** A row the box lost is pending again with a fresh stamp; any other row is untouched. */
  lemma {:induction false} TakenAt(db: Db, jobs: map<Id, Job>, look: Id -> Wire, rows: seq<Id>, ts: seq<int>,
                                   since: int, until: int, id: Id)
    requires |ts| == |rows| && (forall k | 0 <= k < |ts| :: since <= ts[k] <= until) && id in db.recs
    ensures var db' := Taken(db, jobs, look, rows, ts);
            && id in db'.recs
            && if id in rows && Missing(jobs, look, id) then BackBetween(db.recs[id], db'.recs[id], since, until)
               else db'.recs[id] == db.recs[id]
    decreases |rows|
  {
    if rows != [] {
      var n := |rows| - 1;
      TakenAt(db, jobs, look, rows[..n], ts[..n], since, until, id);
      assert id in rows <==> id in rows[..n] || id == rows[n];
    }
  }

  // --- the sweep as a run of the protocol ---------------------------------------------------

  function Begun(began: int, rows: seq<Id>, lookups: nat, sent: seq<Id>): Proc {
    Sweeper(began, Scanning, rows, lookups, sent)
  }

  /** The world after the sweep at `p` has looked at one row. */
  function Looked(w: World, p: Pid, began: int, id: Id, rest: seq<Id>, lookups: nat, sent: seq<Id>,
                  look: Id -> Wire, up: bool, t: int): World {
    if Missing(w.box, look, id)
    then w.(now := t, db := RevertPending(w.db, id, t), log := w.log + BackEntry(w.db, id),
            queue := w.queue + multiset(Sent(id, up)), procs := w.procs[p := Begun(began, rest, lookups + 1, sent + [id])])
    else w.(now := t, procs := w.procs[p := Begun(began, rest, lookups + 1, sent)])
  }

  lemma CheckLeg(w: World, p: Pid, began: int, id: Id, rest: seq<Id>, lookups: nat, sent: seq<Id>, wire: Wire)
    requires p in w.procs && w.procs[p] == Begun(began, [id] + rest, lookups, sent)
    ensures Leads(w, SetProc(w, p, Sweeper(began, if wire.Answered? && id !in w.box then Losing(id) else Scanning,
                                           rest, lookups + 1, sent)), p, AsSweeper)
  {
    LeadsNowhere(w, p, AsSweeper);
    LeadsOn(w, w, Sweep(p, Check(wire)), p, AsSweeper);
    assert ([id] + rest)[1..] == rest;
  }

  lemma TakeBackLeg(w: World, p: Pid, began: int, id: Id, rest: seq<Id>, lookups: nat, sent: seq<Id>, t: int)
    requires p in w.procs && w.procs[p] == Sweeper(began, Losing(id), rest, lookups, sent) && w.now <= t
    ensures Leads(w, w.(now := t, db := RevertPending(w.db, id, t), log := w.log + BackEntry(w.db, id),
                        procs := w.procs[p := Sweeper(began, Resending(id), rest, lookups, sent)]), p, AsSweeper)
  {
    LeadsNowhere(w, p, AsSweeper);
    LeadsOn(w, w, Outside(Tick(t)), p, AsSweeper);
    LeadsOn(w, w.(now := t), Sweep(p, TakeBack), p, AsSweeper);
  }

  lemma ResendLeg(w: World, p: Pid, began: int, id: Id, rest: seq<Id>, lookups: nat, sent: seq<Id>, up: bool)
    requires p in w.procs && w.procs[p] == Sweeper(began, Resending(id), rest, lookups, sent)
    ensures Leads(w, w.(queue := w.queue + multiset(Sent(id, up)),
                        procs := w.procs[p := Begun(began, rest, lookups, sent + [id])]), p, AsSweeper)
  {
    LeadsNowhere(w, p, AsSweeper);
    LeadsOn(w, w, Sweep(p, Resend(up)), p, AsSweeper);
    assert w.queue + multiset{} == w.queue;
  }

  lemma TickLeg(w: World, p: Pid, t: int)
    requires w.now <= t
    ensures Leads(w, w.(now := t), p, AsSweeper)
  {
    LeadsNowhere(w, p, AsSweeper);
    LeadsOn(w, w, Outside(Tick(t)), p, AsSweeper);
  }

  lemma LookLeg(w: World, p: Pid, began: int, id: Id, rest: seq<Id>, lookups: nat, sent: seq<Id>,
                look: Id -> Wire, up: bool, t: int)
    requires p in w.procs && w.procs[p] == Begun(began, [id] + rest, lookups, sent) && w.now <= t
    ensures Leads(w, Looked(w, p, began, id, rest, lookups, sent, look, up, t), p, AsSweeper)
  {
    CheckLeg(w, p, began, id, rest, lookups, sent, look(id));
    var lost := Missing(w.box, look, id);
    var w1 := SetProc(w, p, Sweeper(began, if lost then Losing(id) else Scanning, rest, lookups + 1, sent));
    if lost {
      TakeBackLeg(w1, p, began, id, rest, lookups + 1, sent, t);
      var w2 := w1.(now := t, db := RevertPending(w.db, id, t), log := w.log + BackEntry(w.db, id),
                    procs := w.procs[p := Sweeper(began, Resending(id), rest, lookups + 1, sent)]);
      assert w1.procs[p := w2.procs[p]] == w2.procs;
      LeadsThen(w, w1, w2, p, AsSweeper);
      ResendLeg(w2, p, began, id, rest, lookups + 1, sent, up);
      var w3 := Looked(w, p, began, id, rest, lookups, sent, look, up, t);
      assert w2.procs[p := w3.procs[p]] == w3.procs;
      LeadsThen(w, w2, w3, p, AsSweeper);
    } else {
      TickLeg(w1, p, t);
      LeadsThen(w, w1, w1.(now := t), p, AsSweeper);
    }
  }

  /** What taking these rows back adds to the history. */
  function Backs(db: Db, ids: seq<Id>): seq<Entry> {
    if ids == [] then [] else Backs(db, ids[..|ids| - 1]) + BackEntry(db, ids[|ids| - 1])
  }

  lemma BacksThen(db: Db, db': Db, ids: seq<Id>, id: Id)
    requires db'.recs.Keys == db.recs.Keys
    ensures Backs(db, ids + [id]) == Backs(db, ids) + BackEntry(db', id)
  {
    assert (ids + [id])[..|ids|] == ids;
  }

  /** The world once the sweep at `p` has looked at `rows`. */
  function Passed(w: World, p: Pid, began: int, rows: seq<Id>, rest: seq<Id>, sky: Sky, ts: seq<int>): World
    requires |ts| == |rows|
  {
    var lost := Lost(w.box, sky.look, rows);
    w.(now := Collection.Last(w.now, ts), db := Taken(w.db, w.box, sky.look, rows, ts), log := w.log + Backs(w.db, lost),
       queue := w.queue + multiset(Tasks(lost, sky.resend)), procs := w.procs[p := Begun(began, rest, |rows|, lost)])
  }

  lemma PassedNone(w: World, p: Pid, began: int, rest: seq<Id>, sky: Sky)
    requires p in w.procs && w.procs[p] == Begun(began, rest, 0, [])
    ensures Passed(w, p, began, [], rest, sky, []) == w
  {
    assert w.log + [] == w.log;
  }

  lemma Overwritten(procs: map<Pid, Proc>, p: Pid, a: Proc, b: Proc)
    ensures procs[p := a][p := b] == procs[p := b]
  {
  }

  /** What one more row adds to the rows taken back, to the tables and to the queue. */
  lemma OneMore(db: Db, jobs: map<Id, Job>, rows: seq<Id>, sky: Sky, ts: seq<int>)
    requires |ts| == |rows| && rows != []
    ensures var n := |rows| - 1;
            var before, lost := Taken(db, jobs, sky.look, rows[..n], ts[..n]), Lost(jobs, sky.look, rows[..n]);
            if Missing(jobs, sky.look, rows[n])
            then && Lost(jobs, sky.look, rows) == lost + [rows[n]]
                 && Taken(db, jobs, sky.look, rows, ts) == RevertPending(before, rows[n], ts[n])
                 && Tasks(Lost(jobs, sky.look, rows), sky.resend)
                    == Tasks(lost, sky.resend) + Sent(rows[n], sky.resend(rows[n]))
            else Lost(jobs, sky.look, rows) == lost && Taken(db, jobs, sky.look, rows, ts) == before
  {
  }

  /** The same for a longer list. */
  lemma OneMoreRow(db: Db, jobs: map<Id, Job>, rows: seq<Id>, k: nat, sky: Sky, ts: seq<int>, t: int)
    requires |ts| == k < |rows|
    ensures var before, lost := Taken(db, jobs, sky.look, rows[..k], ts), Lost(jobs, sky.look, rows[..k]);
            if Missing(jobs, sky.look, rows[k])
            then && Taken(db, jobs, sky.look, rows[..k + 1], ts + [t]) == RevertPending(before, rows[k], t)
                 && Tasks(Lost(jobs, sky.look, rows[..k + 1]), sky.resend)
                    == Tasks(lost, sky.resend) + Sent(rows[k], sky.resend(rows[k]))
            else && Taken(db, jobs, sky.look, rows[..k + 1], ts + [t]) == before
                 && Lost(jobs, sky.look, rows[..k + 1]) == lost
  {
    assert rows[..k + 1][..k] == rows[..k] && (ts + [t])[..k] == ts;
    OneMore(db, jobs, rows[..k + 1], sky, ts + [t]);
  }

  lemma Poured(queue: multiset<Id>, a: seq<Id>, b: seq<Id>)
    ensures queue + multiset(a + b) == queue + multiset(a) + multiset(b)
  {
  }

  lemma PassedOne(w: World, p: Pid, began: int, rows: seq<Id>, rest: seq<Id>, sky: Sky, ts: seq<int>)
    requires |ts| == |rows| && rows != []
    ensures var n := |rows| - 1;
            Looked(Passed(w, p, began, rows[..n], [rows[n]] + rest, sky, ts[..n]), p, began, rows[n], rest, n,
                   Lost(w.box, sky.look, rows[..n]), sky.look, sky.resend(rows[n]), ts[n])
            == Passed(w, p, began, rows, rest, sky, ts)
  {
    var n := |rows| - 1;
    var lost := Lost(w.box, sky.look, rows[..n]);
    OneMore(w.db, w.box, rows, sky, ts);
    var mid := Passed(w, p, began, rows[..n], [rows[n]] + rest, sky, ts[..n]);
    if Missing(w.box, sky.look, rows[n]) {
      Poured(w.queue, Tasks(lost, sky.resend), Sent(rows[n], sky.resend(rows[n])));
      TakenFrame(w.db, w.box, sky.look, rows[..n], ts[..n]);
      BacksThen(w.db, mid.db, lost, rows[n]);
      Collection.Longer(w.log, Backs(w.db, lost), BackEntry(mid.db, rows[n]));
    }
    Overwritten(w.procs, p, mid.procs[p], Begun(began, rest, n + 1, Lost(w.box, sky.look, rows)));
  }

  /** The stuck pass is a run of the sweep at `p`. */
  lemma {:induction false} StuckLeg(w: World, p: Pid, began: int, rows: seq<Id>, rest: seq<Id>, sky: Sky, ts: seq<int>)
    requires |ts| == |rows| && Collection.Stamped(w.now, ts)
    requires p in w.procs && w.procs[p] == Begun(began, rows + rest, 0, [])
    ensures Leads(w, Passed(w, p, began, rows, rest, sky, ts), p, AsSweeper)
    decreases |rows|
  {
    if rows == [] {
      LeadsNowhere(w, p, AsSweeper);
      assert rows + rest == rest && ts == [];
      PassedNone(w, p, began, rest, sky);
    } else {
      var n := |rows| - 1;
      assert rows + rest == rows[..n] + ([rows[n]] + rest);
      StuckLeg(w, p, began, rows[..n], [rows[n]] + rest, sky, ts[..n]);
      var mid := Passed(w, p, began, rows[..n], [rows[n]] + rest, sky, ts[..n]);
      LookLeg(mid, p, began, rows[n], rest, n, Lost(w.box, sky.look, rows[..n]), sky.look, sky.resend(rows[n]), ts[n]);
      PassedOne(w, p, began, rows, rest, sky, ts);
      LeadsThen(w, mid, Passed(w, p, began, rows, rest, sky, ts), p, AsSweeper);
    }
  }

  lemma SendLeg(w: World, p: Pid, began: int, id: Id, rest: seq<Id>, lookups: nat, sent: seq<Id>, up: bool)
    requires p in w.procs && w.procs[p] == Sweeper(began, Sending, [id] + rest, lookups, sent)
    ensures Leads(w, w.(queue := w.queue + multiset(Sent(id, up)),
                        procs := w.procs[p := Sweeper(began, Sending, rest, lookups, sent + [id])]), p, AsSweeper)
  {
    LeadsNowhere(w, p, AsSweeper);
    LeadsOn(w, w, Sweep(p, Send(up)), p, AsSweeper);
    assert ([id] + rest)[1..] == rest;
    assert w.queue + multiset{} == w.queue;
  }

  /** So is the pending pass. */
  lemma {:induction false} PendingLeg(w: World, p: Pid, began: int, rows: seq<Id>, rest: seq<Id>, lookups: nat,
                                      sent: seq<Id>, up: Id -> bool)
    requires p in w.procs && w.procs[p] == Sweeper(began, Sending, rows + rest, lookups, sent)
    ensures Leads(w, w.(queue := w.queue + multiset(Tasks(rows, up)),
                        procs := w.procs[p := Sweeper(began, Sending, rest, lookups, sent + rows)]), p, AsSweeper)
    decreases |rows|
  {
    if rows == [] {
      LeadsNowhere(w, p, AsSweeper);
      assert rows + rest == rest && sent + rows == sent && w.queue + multiset{} == w.queue;
      assert w.procs == w.procs[p := w.procs[p]];
    } else {
      var n := |rows| - 1;
      assert rows + rest == rows[..n] + ([rows[n]] + rest);
      PendingLeg(w, p, began, rows[..n], [rows[n]] + rest, lookups, sent, up);
      var mid := w.(queue := w.queue + multiset(Tasks(rows[..n], up)),
                    procs := w.procs[p := Sweeper(began, Sending, [rows[n]] + rest, lookups, sent + rows[..n])]);
      SendLeg(mid, p, began, rows[n], rest, lookups, sent + rows[..n], up(rows[n]));
      Poured(w.queue, Tasks(rows[..n], up), Sent(rows[n], up(rows[n])));
      assert sent + rows[..n] + [rows[n]] == sent + rows;
      assert mid.procs[p := Sweeper(began, Sending, rest, lookups, sent + rows)]
          == w.procs[p := Sweeper(began, Sending, rest, lookups, sent + rows)];
      LeadsThen(w, mid, w.(queue := w.queue + multiset(Tasks(rows, up)),
                           procs := w.procs[p := Sweeper(began, Sending, rest, lookups, sent + rows)]), p, AsSweeper);
    }
  }

  // --- the two passes ------------------------------------------------------------------------

  /** `SELECT ... WHERE state = ? AND updated_at < ? ORDER BY updated_at LIMIT ?` */
  method SelectStale(session: Session, state: RowState, cutoff: int, limit: nat) returns (batch: seq<Id>)
    ensures IsBatch(session.db.recs, state, cutoff, limit, batch)
  {
    ghost var some := ABatch(session.db.recs, state, cutoff, limit);
    batch :| IsBatch(session.db.recs, state, cutoff, limit, batch);
  }

  /** The answer, row by row: distinct rows of that state stamped before the cutoff, each no younger than any that follows
      or is left out; and one is left out only if there are `limit` of them. */
  predicate OldestFirst(recs: map<Id, Recording>, state: RowState, cutoff: int, limit: nat, batch: seq<Id>) {
    && |batch| <= limit
    && (forall i | 0 <= i < |batch| ::
          batch[i] in recs && recs[batch[i]].state == state && recs[batch[i]].updatedAt < cutoff)
    && (forall i, j | 0 <= i < j < |batch| ::
          batch[i] != batch[j] && recs[batch[i]].updatedAt <= recs[batch[j]].updatedAt)
    && (forall id | id in recs && recs[id].state == state && recs[id].updatedAt < cutoff && id !in batch ::
          |batch| == limit && forall i | 0 <= i < |batch| :: recs[batch[i]].updatedAt <= recs[id].updatedAt)
  }

  lemma BatchIsOldest(recs: map<Id, Recording>, state: RowState, cutoff: int, limit: nat, batch: seq<Id>)
    requires IsBatch(recs, state, cutoff, limit, batch)
    ensures OldestFirst(recs, state, cutoff, limit, batch)
  {
    var stale := Stale(recs, state, cutoff);
    forall i | 0 <= i < |batch|
      ensures batch[i] in recs && recs[batch[i]].state == state && recs[batch[i]].updatedAt < cutoff
    {
      assert batch[i] in stale;
    }
    forall id | id in recs && recs[id].state == state && recs[id].updatedAt < cutoff && id !in batch
      ensures |batch| == limit && forall i | 0 <= i < |batch| :: recs[batch[i]].updatedAt <= recs[id].updatedAt
    {
      assert id in stale;
      AllIn(batch, stale - {id});
      forall i | 0 <= i < |batch| ensures recs[batch[i]].updatedAt <= recs[id].updatedAt {
        assert i == |batch| - 1 || recs[batch[i]].updatedAt <= recs[batch[|batch| - 1]].updatedAt;
      }
    }
  }

  /** Looks one stuck row up; if the box lost it, takes it back and sends it again. */
  method CheckRow(session: Session, box: Box, queue: TaskQueue, id: Id, sky: Sky) returns (requeued: nat)
    modifies session, queue
    ensures old(session.now) <= session.now
    ensures if Missing(box.jobs, sky.look, id)
            then && session.db == RevertPending(old(session.db), id, session.now)
                 && queue.tasks == old(queue.tasks) + Sent(id, sky.resend(id)) && requeued == |Sent(id, sky.resend(id))|
            else session.db == old(session.db) && queue.tasks == old(queue.tasks) && requeued == 0
  {
    var job := box.GetJob(id, sky.look(id));
    if job.Raised? || job.value.Some? {
      return 0;
    }
    session.RevertPending(id);
    var sent := queue.Enqueue(id, sky.resend(id));
    requeued := if sent then 1 else 0;
  }

  lemma Appended(a: seq<Id>, b: seq<Id>, c: seq<Id>)
    ensures (a + b) + c == a + (b + c)
  {
  }

  /** Looks every stuck row up, and sends the ones the box lost back through the queue. */
  method StuckPass(session: Session, box: Box, queue: TaskQueue, rows: seq<Id>, sky: Sky)
    returns (requeued: nat, ghost ts: seq<int>)
    modifies session, queue
    ensures |ts| == |rows| && Collection.Stamped(old(session.now), ts)
    ensures session.now == Collection.Last(old(session.now), ts)
    ensures session.db == Taken(old(session.db), box.jobs, sky.look, rows, ts)
    ensures queue.tasks == old(queue.tasks) + Tasks(Lost(box.jobs, sky.look, rows), sky.resend)
    ensures requeued == |Tasks(Lost(box.jobs, sky.look, rows), sky.resend)|
  {
    requeued, ts := 0, [];
    ghost var db, jobs, tasks, start := session.db, box.jobs, queue.tasks, session.now;
    ghost var out: seq<Id> := [];
    for k := 0 to |rows|
      invariant |ts| == k && Collection.Stamped(start, ts) && session.now == Collection.Last(start, ts)
      invariant session.db == Taken(db, jobs, sky.look, rows[..k], ts)
      invariant out == Tasks(Lost(jobs, sky.look, rows[..k]), sky.resend)
      invariant queue.tasks == tasks + out && requeued == |out|
    {
      var sent := CheckRow(session, box, queue, rows[k], sky);
      requeued := requeued + sent;
      OneMoreRow(db, jobs, rows, k, sky, ts, session.now);
      Collection.StampedThen(start, ts, session.now);
      ts := ts + [session.now];
      if Missing(jobs, sky.look, rows[k]) {
        Appended(tasks, out, Sent(rows[k], sky.resend(rows[k])));
        out := out + Sent(rows[k], sky.resend(rows[k]));
      }
    }
    assert rows[..|rows|] == rows;
  }

  /** Sends every stale pending row again. */
  method PendingPass(queue: TaskQueue, rows: seq<Id>, sky: Sky) returns (requeued: nat)
    modifies queue
    ensures queue.tasks == old(queue.tasks) + Tasks(rows, sky.send) && requeued == |Tasks(rows, sky.send)|
  {
    requeued := 0;
    ghost var tasks, out := queue.tasks, Tasks([], sky.send);
    for k := 0 to |rows|
      invariant out == Tasks(rows[..k], sky.send) && queue.tasks == tasks + out && requeued == |out|
    {
      TasksThen(rows[..k], rows[k], sky.send);
      assert rows[..k + 1] == rows[..k] + [rows[k]];
      Appended(tasks, out, Sent(rows[k], sky.send(rows[k])));
      out := out + Sent(rows[k], sky.send(rows[k]));
      var sent := queue.Enqueue(rows[k], sky.send(rows[k]));
      if sent {
        requeued := requeued + 1;
      }
    }
    assert rows[..|rows|] == rows;
  }

  // --- the sweep -----------------------------------------------------------------------------

  /** What one sweep saw after its collection: when it began, and the batches it selected. */
  datatype Pass = Pass(began: int, stuck: seq<Id>, ts: seq<int>, pending: seq<Id>)

  /** `pass` takes the tables from `db` to `db'`, by the query answers a correct database gives. */
  ghost predicate Passes(db: Db, jobs: map<Id, Job>, now: int, cfg: Settings, sky: Sky, pass: Pass, db': Db) {
    && now <= pass.began
    && IsBatch(db.recs, Transcribing, pass.began - cfg.staleSubmitted, cfg.batchLimit, pass.stuck)
    && |pass.ts| == |pass.stuck| && Collection.Stamped(pass.began, pass.ts)
    && db' == Taken(db, jobs, sky.look, pass.stuck, pass.ts)
    && IsBatch(db'.recs, Pending, pass.began - cfg.stalePending, cfg.batchLimit, pass.pending)
  }

  /** The ids a sweep tries to send, in order. */
  function Requeued(jobs: map<Id, Job>, sky: Sky, pass: Pass): seq<Id> {
    Lost(jobs, sky.look, pass.stuck) + pass.pending
  }

  /** The part of the sweep that follows the collection. */
  method Redrive(session: Session, box: Box, queue: TaskQueue, cfg: Settings, sky: Sky)
    returns (requeuedStuck: nat, requeuedPending: nat, ghost pass: Pass)
    modifies session, queue
    ensures Passes(old(session.db), box.jobs, old(session.now), cfg, sky, pass, session.db)
    ensures session.now == Collection.Last(pass.began, pass.ts)
    ensures var lost := Lost(box.jobs, sky.look, pass.stuck);
            && queue.tasks == old(queue.tasks) + Tasks(lost, sky.resend) + Tasks(pass.pending, sky.send)
            && requeuedStuck == |Tasks(lost, sky.resend)| && requeuedPending == |Tasks(pass.pending, sky.send)|
  {
    var now := session.UtcNow();
    var stuck := SelectStale(session, Transcribing, now - cfg.staleSubmitted, cfg.batchLimit);
    ghost var ts;
    requeuedStuck, ts := StuckPass(session, box, queue, stuck, sky);
    var pending := SelectStale(session, Pending, now - cfg.stalePending, cfg.batchLimit);
    requeuedPending := PendingPass(queue, pending, sky);
    pass := Pass(now, stuck, ts, pending);
  }

  /** Collect, then send again whatever fell out of the pipeline. A collection that raises ends the sweep. */
  method RunSweep(session: Session, box: Box, queue: TaskQueue, cfg: Settings, env: Collection.Season, sky: Sky)
    returns (collected: Collection.CollectionResult, raised: bool, requeuedStuck: nat, requeuedPending: nat,
             ghost visits: seq<Collection.Visit>, ghost last: Collection.Turn, ghost pass: Pass)
    modifies session, box, queue
    ensures raised <==> last.Broke? || (last.More? && |visits| < MAX_DRAIN_PAGES)
    ensures Collection.Stampings(visits) && forall p: Pid ::
              collected.Tallied()
              == Collection.Tally(Collection.CollectedLog(
                   Collection.Progress(old(session.now), old(session.db), old(box.jobs), []), env, visits, p))
    ensures var s := Collection.Progress(old(session.now), old(session.db), old(box.jobs), []);
            && Collection.Stampings(visits)
            && var mid := Collection.Collected(s, env, visits);
               && Collection.Whole(s, env, visits, last, mid)
               && box.jobs == mid.jobs && collected.acked == mid.acked && collected.pages == |visits|
               && if raised then session.db == mid.db && session.now == mid.now && queue.tasks == old(queue.tasks)
                  else Passes(mid.db, mid.jobs, mid.now, cfg, sky, pass, session.db) &&
                       session.now == Collection.Last(pass.began, pass.ts)
    ensures !raised ==>
              var resent, sent := Tasks(Lost(box.jobs, sky.look, pass.stuck), sky.resend), Tasks(pass.pending, sky.send);
              && queue.tasks == old(queue.tasks) + resent + sent
              && requeuedStuck == |resent| && requeuedPending == |sent|
  {
    collected, raised, visits, last := Collection.CollectTranscripts(session, box, env);
    requeuedStuck, requeuedPending, pass := 0, 0, Pass(session.now, [], [], []);
    if !raised {
      requeuedStuck, requeuedPending, pass := Redrive(session, box, queue, cfg, sky);
    }
  }

  // --- what it comes to ----------------------------------------------------------------------

  lemma BeginLeg(w: World, p: Pid, began: int, stuck: seq<Id>)
    requires p !in w.procs && w.now <= began
    requires IsBatch(w.db.recs, Transcribing, began - w.cfg.staleSubmitted, w.cfg.batchLimit, stuck)
    ensures Leads(w, w.(now := began, procs := w.procs[p := Begun(began, stuck, 0, [])]), p, AsSweeper)
  {
    LeadsNowhere(w, p, AsSweeper);
    LeadsOn(w, w, Outside(Tick(began)), p, AsSweeper);
    LeadsOn(w, w.(now := began), Sweep(p, Begin), p, AsSweeper);
    var w1 := SetProc(w.(now := began), p, Sweeper(began, Starting, [], 0, []));
    LeadsOn(w, w1, Sweep(p, Pick(stuck)), p, AsSweeper);
    Overwritten(w.procs, p, w1.procs[p], Begun(began, stuck, 0, []));
  }

  lemma SelectLeg(w: World, p: Pid, began: int, lookups: nat, sent: seq<Id>, pending: seq<Id>)
    requires p in w.procs && w.procs[p] == Begun(began, [], lookups, sent)
    requires IsBatch(w.db.recs, RowState.Pending, began - w.cfg.stalePending, w.cfg.batchLimit, pending)
    ensures Leads(w, SetProc(w, p, Sweeper(began, Sending, pending, lookups, sent)), p, AsSweeper)
  {
    LeadsNowhere(w, p, AsSweeper);
    LeadsOn(w, w, Sweep(p, Select(pending)), p, AsSweeper);
  }

  lemma CheckedAll(w: World, p: Pid, sky: Sky, began: int, stuck: seq<Id>, ts: seq<int>)
    requires p !in w.procs && w.now <= began && |ts| == |stuck| && Collection.Stamped(began, ts)
    requires IsBatch(w.db.recs, Transcribing, began - w.cfg.staleSubmitted, w.cfg.batchLimit, stuck)
    ensures var lost := Lost(w.box, sky.look, stuck);
            Leads(w, w.(now := Collection.Last(began, ts), db := Taken(w.db, w.box, sky.look, stuck, ts),
                        log := w.log + Backs(w.db, lost), queue := w.queue + multiset(Tasks(lost, sky.resend)),
                        procs := w.procs[p := Begun(began, [], |stuck|, lost)]), p, AsSweeper)
  {
    BeginLeg(w, p, began, stuck);
    var w1 := w.(now := began, procs := w.procs[p := Begun(began, stuck, 0, [])]);
    assert stuck + [] == stuck;
    StuckLeg(w1, p, began, stuck, [], sky, ts);
    var w2 := Passed(w.(now := began), p, began, stuck, [], sky, ts);
    Overwritten(w.procs, p, w1.procs[p], w2.procs[p]);
    LeadsThen(w, w1, w2, p, AsSweeper);
  }

  /** The world once the sweep at `p` has gone through its stuck rows. */
  function Halfway(w: World, p: Pid, sky: Sky, pass: Pass, db': Db): World {
    var lost := Lost(w.box, sky.look, pass.stuck);
    w.(now := Collection.Last(pass.began, pass.ts), db := db', log := w.log + Backs(w.db, lost),
       queue := w.queue + multiset(Tasks(lost, sky.resend)),
       procs := w.procs[p := Begun(pass.began, [], |pass.stuck|, lost)])
  }

  lemma FirstHalf(w: World, p: Pid, sky: Sky, pass: Pass, db': Db)
    requires p !in w.procs && Passes(w.db, w.box, w.now, w.cfg, sky, pass, db')
    ensures Leads(w, Halfway(w, p, sky, pass, db'), p, AsSweeper)
  {
    CheckedAll(w, p, sky, pass.began, pass.stuck, pass.ts);
  }

  /** The selection of the pending rows, and the sending. */
  lemma SecondHalf(w: World, p: Pid, began: int, rows: seq<Id>, lookups: nat, sent: seq<Id>, up: Id -> bool)
    requires p in w.procs && w.procs[p] == Begun(began, [], lookups, sent)
    requires IsBatch(w.db.recs, RowState.Pending, began - w.cfg.stalePending, w.cfg.batchLimit, rows)
    ensures Leads(w, w.(queue := w.queue + multiset(Tasks(rows, up)), procs := w.procs - {p}), p, AsSweeper)
  {
    SelectLeg(w, p, began, lookups, sent, rows);
    var w1 := SetProc(w, p, Sweeper(began, Sending, rows, lookups, sent));
    SendAll(w1, p, began, rows, lookups, sent, up);
    var w2 := w.(queue := w.queue + multiset(Tasks(rows, up)), procs := w.procs - {p});
    assert w1.procs - {p} == w2.procs;
    LeadsThen(w, w1, w2, p, AsSweeper);
  }

  lemma SendAll(w: World, p: Pid, began: int, rows: seq<Id>, lookups: nat, sent: seq<Id>, up: Id -> bool)
    requires p in w.procs && w.procs[p] == Sweeper(began, Sending, rows, lookups, sent)
    ensures Leads(w, w.(queue := w.queue + multiset(Tasks(rows, up)), procs := w.procs - {p}), p, AsSweeper)
  {
    assert rows + [] == rows;
    PendingLeg(w, p, began, rows, [], lookups, sent, up);
    var w1 := w.(queue := w.queue + multiset(Tasks(rows, up)),
                 procs := w.procs[p := Sweeper(began, Sending, [], lookups, sent + rows)]);
    LeadsOn(w, w1, Exit(p), p, AsSweeper);
    assert w1.procs - {p} == w.procs - {p};
  }

  /** What the part of a sweep that follows the collection leaves. */
  function Redriven(w: World, sky: Sky, pass: Pass, db': Db): World {
    var lost := Lost(w.box, sky.look, pass.stuck);
    w.(now := Collection.Last(pass.began, pass.ts), db := db', log := w.log + Backs(w.db, lost),
       queue := w.queue + multiset(Tasks(lost, sky.resend)) + multiset(Tasks(pass.pending, sky.send)))
  }

  lemma RestOfIt(w: World, p: Pid, sky: Sky, pass: Pass, db': Db)
    requires p !in w.procs
    requires IsBatch(db'.recs, RowState.Pending, pass.began - w.cfg.stalePending, w.cfg.batchLimit, pass.pending)
    ensures Leads(Halfway(w, p, sky, pass, db'), Redriven(w, sky, pass, db'), p, AsSweeper)
  {
    var w1 := Halfway(w, p, sky, pass, db');
    CameAndWent(w.procs, p, w1.procs[p]);
    SecondHalf(w1, p, pass.began, pass.pending, |pass.stuck|, Lost(w.box, sky.look, pass.stuck), sky.send);
  }

  /** It is a run of one sweep. */
  lemma RedriveIsRun(w: World, p: Pid, sky: Sky, pass: Pass, db': Db)
    requires p !in w.procs && Passes(w.db, w.box, w.now, w.cfg, sky, pass, db')
    ensures Leads(w, Redriven(w, sky, pass, db'), p, AsSweeper)
  {
    FirstHalf(w, p, sky, pass, db');
    RestOfIt(w, p, sky, pass, db');
    LeadsThen(w, Halfway(w, p, sky, pass, db'), Redriven(w, sky, pass, db'), p, AsSweeper);
  }

  /** A whole sweep is a run of one collector and then a run of one sweep, and adds to the history what the collector
      decided and which rows were taken back. */
  lemma SweepIsRun(w: World, p: Pid, env: Collection.Season, visits: seq<Collection.Visit>, sky: Sky, pass: Pass, db': Db)
    requires p !in w.procs && Collection.Stampings(visits) && Collection.Visits(Collection.Outset(w), env, visits)
    requires var mid := Collection.Collected(Collection.Outset(w), env, visits);
             Passes(mid.db, mid.jobs, mid.now, w.cfg, sky, pass, db')
    ensures var mid := Collection.Shown(w, p, env, visits);
            Leads(w, mid, p, AsCollector) && Leads(mid, Redriven(mid, sky, pass, db'), p, AsSweeper)
  {
    Collection.CollectionIsRun(w, p, env, visits);
    RedriveIsRun(Collection.Shown(w, p, env, visits), p, sky, pass, db');
  }

  /** One sweep looks at most `limit` rows up, sends no recording twice and at most `2 * limit` of them: a row taken
      back in the stuck pass is too young for the pending pass. */
  lemma SendsOnce(db: Db, jobs: map<Id, Job>, now: int, cfg: Settings, sky: Sky, pass: Pass, db': Db)
    requires Passes(db, jobs, now, cfg, sky, pass, db')
    ensures |pass.stuck| <= cfg.batchLimit
    ensures Distinct(Requeued(jobs, sky, pass)) && |Requeued(jobs, sky, pass)| <= 2 * cfg.batchLimit
  {
    var lost := Lost(jobs, sky.look, pass.stuck);
    LostAre(jobs, sky.look, pass.stuck);
    forall id | id in lost ensures id !in pass.pending {
      assert id in Stale(db.recs, Transcribing, pass.began - cfg.staleSubmitted);
      TakenAt(db, jobs, sky.look, pass.stuck, pass.ts, pass.began, Collection.Last(pass.began, pass.ts), id);
      assert id in pass.pending ==> id in Stale(db'.recs, Pending, pass.began - cfg.stalePending);
    }
    SweepBounds.Apart(lost, pass.pending);
  }

  /** The stale `transcribing` rows whose job the box still holds, and those whose job it lost. */
  function HeldRows(db: Db, jobs: map<Id, Job>, cutoff: int): set<Id> {
    set id | id in Stale(db.recs, Transcribing, cutoff) && id in jobs
  }

  function LostRows(db: Db, jobs: map<Id, Job>, cutoff: int): set<Id> {
    Stale(db.recs, Transcribing, cutoff) - HeldRows(db, jobs, cutoff)
  }

  lemma {:induction false} CountSplit(ids: seq<Id>, jobs: map<Id, Job>, look: Id -> Wire, held: set<Id>)
    requires Distinct(ids) && (forall id :: look(id).Answered?)
    requires forall id | id in ids && id in jobs :: id in held
    ensures |Lost(jobs, look, ids)| + |held| >= |ids|
    decreases |ids|
  {
    if ids != [] {
      var n := |ids| - 1;
      assert ids[n] in ids;
      if ids[n] in jobs {
        CountSplit(ids[..n], jobs, look, held - {ids[n]});
      } else {
        CountSplit(ids[..n], jobs, look, held);
      }
    }
  }

  lemma EnoughLost(db: Db, jobs: map<Id, Job>, cutoff: int, limit: nat, stuck: seq<Id>, look: Id -> Wire)
    requires IsBatch(db.recs, Transcribing, cutoff, limit, stuck) && forall id :: look(id).Answered?
    ensures |Lost(jobs, look, stuck)|
            >= Min(|LostRows(db, jobs, cutoff)|, limit - |HeldRows(db, jobs, cutoff)|)
  {
    SetSizes(HeldRows(db, jobs, cutoff), Stale(db.recs, Transcribing, cutoff));
    CountSplit(stuck, jobs, look, HeldRows(db, jobs, cutoff));
  }

  /** The rows taken back were stale and lost; those the box holds were not touched. */
  lemma LostIsTaken(db: Db, jobs: map<Id, Job>, cutoff: int, look: Id -> Wire, stuck: seq<Id>, ts: seq<int>, since: int,
                    until: int)
    requires |ts| == |stuck| && (forall k | 0 <= k < |ts| :: since <= ts[k] <= until)
    requires forall id | id in stuck :: id in Stale(db.recs, Transcribing, cutoff)
    ensures var db' := Taken(db, jobs, look, stuck, ts);
            && (forall id | id in Lost(jobs, look, stuck) ::
                  id in LostRows(db, jobs, cutoff) && id in db'.recs && BackBetween(db.recs[id], db'.recs[id], since, until))
            && (forall id | id in HeldRows(db, jobs, cutoff) :: id in db'.recs && db'.recs[id] == db.recs[id])
  {
    LostAre(jobs, look, stuck);
    forall id | id in Stale(db.recs, Transcribing, cutoff)
      ensures var db' := Taken(db, jobs, look, stuck, ts);
              && id in db'.recs
              && if id in stuck && Missing(jobs, look, id) then BackBetween(db.recs[id], db'.recs[id], since, until)
                 else db'.recs[id] == db.recs[id]
    {
      TakenAt(db, jobs, look, stuck, ts, since, until, id);
    }
  }

  lemma LostCount(db: Db, jobs: map<Id, Job>, cutoff: int, limit: nat, sky: Sky, stuck: seq<Id>)
    requires IsBatch(db.recs, Transcribing, cutoff, limit, stuck)
    requires forall id :: sky.look(id).Answered?
    requires forall id :: sky.resend(id)
    ensures var lost := Lost(jobs, sky.look, stuck);
            && Tasks(lost, sky.resend) == lost && Distinct(lost)
            && |lost| >= Min(|LostRows(db, jobs, cutoff)|, limit - |HeldRows(db, jobs, cutoff)|)
  {
    EnoughLost(db, jobs, cutoff, limit, stuck, sky.look);
    AllTasks(Lost(jobs, sky.look, stuck), sky.resend);
    LostAre(jobs, sky.look, stuck);
  }

  lemma BatchIsStale(recs: map<Id, Recording>, state: RowState, cutoff: int, limit: nat, batch: seq<Id>)
    requires IsBatch(recs, state, cutoff, limit, batch)
    ensures forall id | id in batch :: id in Stale(recs, state, cutoff)
  {
  }

  /** With box and queue reachable and fewer held rows than a batch has places, the stuck pass takes back and sends
      as many of the lost rows as places are left for them, and leaves every held row as it is. */
  lemma StuckProgress(db: Db, jobs: map<Id, Job>, cutoff: int, limit: nat, sky: Sky, stuck: seq<Id>, ts: seq<int>,
                      began: int)
    requires IsBatch(db.recs, Transcribing, cutoff, limit, stuck) && |ts| == |stuck| && Collection.Stamped(began, ts)
    requires forall id :: sky.look(id).Answered?
    requires forall id :: sky.resend(id)
    requires |HeldRows(db, jobs, cutoff)| < limit
    ensures var lost, db' := Tasks(Lost(jobs, sky.look, stuck), sky.resend), Taken(db, jobs, sky.look, stuck, ts);
            && |lost| >= Min(|LostRows(db, jobs, cutoff)|, limit - |HeldRows(db, jobs, cutoff)|)
            && Distinct(lost)
            && (forall id | id in lost ::
                  && id in LostRows(db, jobs, cutoff) && id in db'.recs
                  && BackBetween(db.recs[id], db'.recs[id], began, Collection.Last(began, ts)))
            && (forall id | id in HeldRows(db, jobs, cutoff) :: id in db'.recs && db'.recs[id] == db.recs[id])
  {
    LostCount(db, jobs, cutoff, limit, sky, stuck);
    BatchIsStale(db.recs, Transcribing, cutoff, limit, stuck);
    LostIsTaken(db, jobs, cutoff, sky.look, stuck, ts, began, Collection.Last(began, ts));
  }
}
