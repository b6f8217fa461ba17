/** Persist, then acknowledge: whatever an ack removes from the box was decided and committed before. */
module PersistThenAck {
  import opened Wrappers
  import opened Core
  import opened Protocol
  import opened Frames

  predicate Writes(e: Entry, id: Id) {
    e.Decided? && e.job.id == id && e.verdict.Wrote?
  }

  ghost predicate WrittenIn(log: seq<Entry>, id: Id) {
    exists j :: 0 <= j < |log| && Writes(log[j], id)
  }

  /** The decision at `j` answers the result it was taken for. A row found already done had its transcript
      committed earlier in the same history. */
  ghost predicate Sound(log: seq<Entry>, j: nat)
    requires j < |log| && log[j].Decided?
  {
    var Decided(_, job, v) := log[j];
    match v
    case Wrote(text) => Bears(job.status, text)
    case GaveUp(reason) =>
      Blames(job.status, reason) ||
      (reason == "No event linked to recording" && job.status.Finished? && job.status.result.Transcript?)
    case Requeued => job.status == Finished(Failure(Some("audio_missing")))
    case AlreadyDone => job.status.Finished? && job.status.result.Transcript? && WrittenIn(log[..j], job.id)
    case NoRecording => true
    case Refused => false
  }

  /** A committed, sound decision for exactly this result: same id, same submission, same outcome. */
  ghost predicate DecidedIn(log: seq<Entry>, job: Item) {
    exists j :: 0 <= j < |log| && log[j].Decided? && log[j].job == job && Sound(log, j)
  }

  ghost predicate DoneWasWritten(w: World) {
    forall id | id in w.db.recs && w.db.recs[id].state == Done :: WrittenIn(w.log, id)
  }

  ghost predicate AckableIsDecided(w: World) {
    forall p, it | CollectorAt(w, p) && it in w.procs[p].ackable :: DecidedIn(w.log, it)
  }

  ghost predicate History(w: World) {
    DoneWasWritten(w) && AckableIsDecided(w)
  }

  /** Pages report finished jobs, and a finished job does not change while it stays on the box. */
  ghost predicate PagesAreTrue(w: World) {
    && (forall id | id in w.box :: w.box[id].serial < w.serial)
    && (forall p, it | Holds(w, p, it) ::
          it.serial < w.serial && it.status.Finished? &&
          (it.id in w.box && w.box[it.id].serial == it.serial ==> w.box[it.id].status == it.status))
  }

  // --- one step ------------------------------------------------------------------------

  lemma PagesStep(w: World, w': World)
    requires PagesAreTrue(w) && BoxFrom(w, w') && PagesFrom(w, w')
    ensures PagesAreTrue(w')
  {
  }

  lemma StaysWritten(log: seq<Entry>, more: seq<Entry>)
    requires log <= more
    ensures forall id | WrittenIn(log, id) :: WrittenIn(more, id)
    ensures forall job | DecidedIn(log, job) :: DecidedIn(more, job)
  {
  }

  lemma OutsideStep(w: World, o: OutsideMove)
    requires History(w) && CanOutside(w, o)
    ensures History(DoOutside(w, o))
  {
  }

  lemma WorkStep(w: World, p: Pid, x: WorkMove)
    requires History(w) && CanWork(w, p, x)
    ensures History(DoWork(w, p, x))
  {
    StaysWritten(w.log, DoWork(w, p, x).log);
  }

  lemma SweepStep(w: World, p: Pid, s: SweepMove)
    requires History(w) && CanSweep(w, p, s)
    ensures History(DoSweep(w, p, s))
  {
    StaysWritten(w.log, DoSweep(w, p, s).log);
  }

  /** A persist that commits leaves a sound decision for the job it took off the page. */
  lemma PersistDecides(w: World, p: Pid, fault: Fault)
    requires History(w) && PagesAreTrue(w) && CanGather(w, p, Persist(fault))
    requires DoPersist(w, p, fault).log != w.log
    ensures DecidedIn(DoPersist(w, p, fault).log, w.procs[p].todo[0])
    ensures DoneWasWritten(DoPersist(w, p, fault))
  {
    var w' := DoPersist(w, p, fault);
    var it := w.procs[p].todo[0];
    var j := |w'.log| - 1;
    assert Holds(w, p, it);
    assert w.log <= w'.log[..j];
    StaysWritten(w.log, w'.log[..j]);
    assert Sound(w'.log, j);
    StaysWritten(w'.log[..j], w'.log);
    assert w'.log[j].verdict.Wrote? ==> Writes(w'.log[j], it.id);
  }

  lemma PersistStep(w: World, p: Pid, fault: Fault)
    requires History(w) && PagesAreTrue(w) && CanGather(w, p, Persist(fault))
    ensures History(DoPersist(w, p, fault))
  {
    StaysWritten(w.log, DoPersist(w, p, fault).log);
    if DoPersist(w, p, fault).log != w.log {
      PersistDecides(w, p, fault);
    }
  }

  lemma GatherStep(w: World, p: Pid, g: GatherMove)
    requires History(w) && PagesAreTrue(w) && CanGather(w, p, g)
    ensures History(DoGather(w, p, g))
  {
    if g.Persist? {
      PersistStep(w, p, g.fault);
    }
  }

  lemma HistoryStep(w: World, a: Act)
    requires History(w) && PagesAreTrue(w) && Enabled(w, a)
    ensures History(Do(w, a))
  {
    match a
    case Outside(o) => OutsideStep(w, o);
    case AtBox(b) =>
    case Work(p, x) => WorkStep(w, p, x);
    case Gather(p, g) => GatherStep(w, p, g);
    case Sweep(p, s) => SweepStep(w, p, s);
    case Exit(p) =>
  }

  /** What a decision taken on tables `db` at `now` and leaving `db'` says is what the tables say. */
  ghost predicate Meets(db: Db, db': Db, job: Item, v: Verdict, now: int) {
    match v
    case Wrote(text) => Shows(db, db', job.id, text, now) && db.recs[job.id].state != Done
    case GaveUp(reason) =>
      FailsFor(db, db', job.id, reason, now) &&
      (job.status.Finished? && job.status.result.Transcript? ==> job.id !in db.events)
    case Requeued => GoesBack(db, db', job.id, now)
    case AlreadyDone => job.id in db.recs && db.recs[job.id].state == Done && db' == db
    case NoRecording => job.id !in db.recs && db' == db
    case Refused => false
  }

  /** The decision `w'` has on top of the history of `w`, if the step between them took one. */
  ghost predicate Takes(w: World, w': World, e: Entry) {
    e.Decided? && |w'.log| > |w.log| && w'.log[|w'.log| - 1] == e
  }

  lemma OnlyPersistsDecide(w: World, a: Act, e: Entry)
    requires Enabled(w, a) && Takes(w, Do(w, a), e)
    ensures a.Gather? && a.g.Persist?
  {
  }

  lemma PersistMeets(w: World, p: Pid, fault: Fault, e: Entry)
    requires CanGather(w, p, Persist(fault)) && Takes(w, DoPersist(w, p, fault), e)
    ensures Meets(w.db, DoPersist(w, p, fault).db, e.job, e.verdict, w.now)
  {
  }

  /** In every run, a decision enters the history in the very step whose tables bear it out: the transcript is there, the
      row failed or is pending, or the row was done already, or no row or no event was there to write to. */
  lemma DecisionsMeetTables(start: World, acts: seq<Act>, k: nat, e: Entry)
    requires Legal(start, acts) && k < |acts|
    ensures Legal(start, acts[..k]) && Enabled(Run(start, acts[..k]), acts[k])
    ensures var w, w' := Run(start, acts[..k]), Do(Run(start, acts[..k]), acts[k]);
            Takes(w, w', e) ==> Meets(w.db, w'.db, e.job, e.verdict, w.now)
  {
    Split(start, acts, k);
    var w := Run(start, acts[..k]);
    if Takes(w, Do(w, acts[k]), e) {
      OnlyPersistsDecide(w, acts[k], e);
      PersistMeets(w, acts[k].p, acts[k].g.fault, e);
    }
  }

  // --- whole runs ------------------------------------------------------------------------

  ghost predicate Held(w: World, id: Id) {
    exists p, it :: Holds(w, p, it) && it.id == id
  }

  /** A new job for an id still on some collector's page would appear in this step. */
  ghost predicate RenewsHeld(w: World, w': World) {
    exists id :: id in w'.box && id !in w.box && Held(w, id)
  }

  /** The named hypothesis of the theorem: no id is submitted anew while some collector still has it on a page. */
  ghost predicate Leased(w: World, acts: seq<Act>)
    requires Legal(w, acts)
    decreases |acts|
  {
    acts == [] || (!RenewsHeld(w, Do(w, acts[0])) && Leased(Do(w, acts[0]), acts[1..]))
  }

  /** What a collector holds is what the box holds under that id, if anything. */
  ghost predicate PagesAreCurrent(w: World) {
    forall p, it | Holds(w, p, it) && it.id in w.box :: w.box[it.id].serial == it.serial
  }

  ghost predicate Inv(w: World) {
    History(w) && PagesAreTrue(w) && PagesAreCurrent(w)
  }

  lemma CurrentStep(w: World, w': World)
    requires PagesAreCurrent(w) && BoxFrom(w, w') && PagesFrom(w, w') && !RenewsHeld(w, w')
    ensures PagesAreCurrent(w')
  {
  }

  lemma Step(w: World, a: Act)
    requires Inv(w) && Enabled(w, a) && !RenewsHeld(w, Do(w, a))
    ensures Inv(Do(w, a))
  {
    StepBox(w, a);
    StepPages(w, a);
    PagesStep(w, Do(w, a));
    CurrentStep(w, Do(w, a));
    HistoryStep(w, a);
  }

  lemma {:induction false} RunKeeps(w: World, acts: seq<Act>, k: nat)
    requires Inv(w) && Legal(w, acts) && Leased(w, acts) && k <= |acts|
    ensures Legal(w, acts[..k]) && Inv(Run(w, acts[..k]))
    decreases |acts|
  {
    if k > 0 {
      Step(w, acts[0]);
      RunKeeps(Do(w, acts[0]), acts[1..], k - 1);
      assert acts[..k][1..] == acts[1..][..k - 1];
    }
  }

  /** Every result that going from `w` to `w'` removes from the box already has its decision in `w`. */
  ghost predicate RemovesOnlyDecided(w: World, w': World) {
    forall id | id in w.box && id !in w'.box :: DecidedIn(w.log, ItemOf(w.box, id))
  }

  /** One acknowledgement, with no assumption about the run: exactly a job submitted again after the page was
      drained, and not decided since, can be lost to it. */
  lemma AckLosesOnlyResubmitted(w: World, p: Pid, wire: Wire)
    requires AckableIsDecided(w) && PagesAreTrue(w) && CanGather(w, p, Ack(wire)) && wire.TakesEffect()
    ensures RemovesOnlyDecided(w, DoGather(w, p, Ack(wire))) <==>
            forall it | it in w.procs[p].ackable && it.id in w.box && w.box[it.id].serial != it.serial ::
              DecidedIn(w.log, ItemOf(w.box, it.id))
  {
    var w' := DoGather(w, p, Ack(wire));
    forall it | it in w.procs[p].ackable && it.id in w.box
      ensures it.id !in w'.box
      ensures w.box[it.id].serial == it.serial ==> DecidedIn(w.log, ItemOf(w.box, it.id))
    {
      assert Holds(w, p, it);
      assert w.box[it.id].serial == it.serial ==> it == ItemOf(w.box, it.id);
    }
    forall id | id in w.box && id !in w'.box ensures exists it :: it in w.procs[p].ackable && it.id == id {
    }
  }

  /** Decisions are on record and pages report finished jobs in every run, leased or not. */
  lemma {:induction false} HistoryAlways(w: World, acts: seq<Act>, k: nat)
    requires History(w) && PagesAreTrue(w) && Legal(w, acts) && k <= |acts|
    ensures Legal(w, acts[..k]) && History(Run(w, acts[..k])) && PagesAreTrue(Run(w, acts[..k]))
    decreases |acts|
  {
    if k > 0 {
      var next := Do(w, acts[0]);
      StepBox(w, acts[0]);
      StepPages(w, acts[0]);
      PagesStep(w, next);
      HistoryStep(w, acts[0]);
      HistoryAlways(next, acts[1..], k - 1);
      assert acts[..k][1..] == acts[1..][..k - 1];
    }
  }

  /** Every acknowledgement of every run, without the hypothesis: it removes only decided results if and only if every
      job it hits that was submitted again since its page was drained has been decided too. */
  lemma AckIsSafeExactlyIf(start: World, acts: seq<Act>, k: nat)
    requires Initial(start) && Legal(start, acts)
    requires k < |acts| && acts[k].Gather? && acts[k].g.Ack?
    ensures Legal(start, acts[..k]) && Enabled(Run(start, acts[..k]), acts[k])
    ensures var w, a := Run(start, acts[..k]), acts[k];
            RemovesOnlyDecided(w, Do(w, a)) <==>
            (a.g.wire.TakesEffect() ==>
               forall it | it in w.procs[a.p].ackable && it.id in w.box && w.box[it.id].serial != it.serial ::
                 DecidedIn(w.log, ItemOf(w.box, it.id)))
  {
    HistoryAlways(start, acts, k);
    Split(start, acts, k);
    var w, a := Run(start, acts[..k]), acts[k];
    if a.g.wire.TakesEffect() {
      AckLosesOnlyResubmitted(w, a.p, a.g.wire);
    }
  }

  /** For any number of collectors and crashes anywhere: every acknowledgement of a run removes only results
      whose sound decision was committed earlier in that run. */
  lemma DecisionPrecedesAck(start: World, acts: seq<Act>, k: nat)
    requires Initial(start)
    requires Legal(start, acts) && Leased(start, acts)
    requires k < |acts| && acts[k].Gather? && acts[k].g.Ack?
    ensures Legal(start, acts[..k]) && Enabled(Run(start, acts[..k]), acts[k])
    ensures RemovesOnlyDecided(Run(start, acts[..k]), Do(Run(start, acts[..k]), acts[k]))
  {
    RunKeeps(start, acts, k);
    Split(start, acts, k);
    AckKeeps(Run(start, acts[..k]), acts[k]);
  }

  lemma AckKeeps(w: World, a: Act)
    requires Inv(w) && Enabled(w, a) && a.Gather? && a.g.Ack?
    ensures RemovesOnlyDecided(w, Do(w, a))
  {
    assert forall it | it in w.procs[a.p].ackable :: Holds(w, a.p, it);
    if a.g.wire.TakesEffect() {
      AckLosesOnlyResubmitted(w, a.p, a.g.wire);
    }
  }
}
