/** With the entry points serialised, `done` is final: the transcript that was stored stays, and the box holds
    nothing else for its id. Processes may still die anywhere, in particular between persist and ack. */
module DoneIsFinal {
  import opened Wrappers
  import opened Core
  import opened Protocol
  import opened PersistThenAck

  /** The step lets a new process into the system. */
  predicate Starts(a: Act) {
    || (a.Work? && a.x.Deliver?)
    || (a.Gather? && a.g.Open?)
    || (a.Sweep? && a.s.Begin?)
  }

  /** An entry point only runs once the one before it has returned or died. */
  predicate InTurn(w: World, a: Act) {
    Starts(a) ==> w.procs == map[]
  }

  predicate Serialised(w: World, acts: seq<Act>)
    requires Legal(w, acts)
    decreases |acts|
  {
    acts == [] || (InTurn(w, acts[0]) && Serialised(Do(w, acts[0]), acts[1..]))
  }

  /** The row is done and its event still there to show the transcript. */
  predicate Complete(w: World, id: Id) {
    id in w.db.recs && id in w.db.events && w.db.recs[id].state == Done
  }

  /** The event shows the text of `job`, written by the transaction that made the row done. */
  ghost predicate StoredAs(w: World, id: Id, job: Item) {
    && job.status.Finished? && job.status.result.Transcript?
    && id in w.db.events && w.db.events[id].description.Some? && Bears(job.status, w.db.events[id].description.value)
    && exists j :: 0 <= j < |w.log| && Writes(w.log[j], id) && w.log[j].job == job
                   && Some(w.log[j].verdict.text) == w.db.events[id].description
  }

  predicate OnBox(w: World, id: Id, job: Item) {
    id in w.box ==> ItemOf(w.box, id) == job
  }

  predicate OnPage(todo: seq<Item>, id: Id, job: Item) {
    forall it | it in todo && it.id == id :: it == job
  }

  /** What the one running process may be about to do to a complete recording: nothing. */
  ghost predicate Tame(w: World, p: Pid)
    requires p in w.procs
  {
    match w.procs[p]
    case Worker(id, pc) => id in w.born && (!pc.Found? ==> NotDone(w, id))
    case Collector(todo, _) =>
      DistinctIds(todo) && forall it | it in todo :: it.status.Finished? && OnBox(w, it.id, it)
    case Sweeper(_, phase, rows, _, _) =>
      && (phase.Losing? ==> phase.id in w.born && NotDone(w, phase.id))
      && (!phase.Sending? ==> forall r | r in rows :: r in w.born && NotDone(w, r))
  }

  predicate NotDone(w: World, id: Id) {
    id in w.db.recs ==> w.db.recs[id].state != Done
  }

  ghost predicate Kept(w: World, id: Id) {
    exists job :: StoredAs(w, id, job) && OnBox(w, id, job)
                  && forall p | CollectorAt(w, p) :: OnPage(w.procs[p].todo, id, job)
  }

  ghost predicate RowsKept(w: World) {
    forall id | Complete(w, id) :: Kept(w, id)
  }

  ghost predicate ProcsTame(w: World) {
    && (forall p, q | p in w.procs && q in w.procs :: p == q)
    && (forall p | p in w.procs :: Tame(w, p))
    && (forall id | id in w.db.recs || id in w.db.events :: id in w.born)
  }

  ghost predicate Inv(w: World) {
    RowsKept(w) && ProcsTame(w)
  }

  // --- one step: what is stored ----------------------------------------------------------

  /** Between `w` and `w'` neither the event nor the box nor any page got something new about `id`. */
  ghost predicate Carries(w: World, w': World, id: Id) {
    && w.log <= w'.log
    && id in w.db.events && id in w'.db.events && w'.db.events[id].description == w.db.events[id].description
    && (id in w'.box ==> id in w.box && (w.box[id].status.Finished? ==> w'.box[id] == w.box[id]))
    && (forall p, it | CollectorAt(w', p) && it in w'.procs[p].todo && it.id == id ::
          || (CollectorAt(w, p) && it in w.procs[p].todo)
          || (id in w.box && it == ItemOf(w.box, id)))
  }

  lemma KeptOver(w: World, w': World, id: Id)
    requires Kept(w, id) && Carries(w, w', id)
    ensures Kept(w', id)
  {
    var job :| StoredAs(w, id, job) && OnBox(w, id, job) &&
      forall p | CollectorAt(w, p) :: OnPage(w.procs[p].todo, id, job);
    var j :| 0 <= j < |w.log| && Writes(w.log[j], id) && w.log[j].job == job
             && Some(w.log[j].verdict.text) == w.db.events[id].description;
    assert w'.log[j] == w.log[j];
    assert StoredAs(w', id, job);
  }

  /** What was complete before is carried over, and what becomes complete is kept. */
  ghost predicate Preserves(w: World, w': World) {
    forall id | Complete(w', id) :: if Complete(w, id) then Carries(w, w', id) else Kept(w', id)
  }

  lemma OutsideKeeps(w: World, o: OutsideMove)
    requires ProcsTame(w) && CanOutside(w, o)
    ensures Preserves(w, DoOutside(w, o))
  {
  }

  lemma BoxKeeps(w: World, b: BoxMove)
    requires CanBox(w, b)
    ensures Preserves(w, DoBox(w, b))
  {
  }

  lemma SubmitKeeps(w: World, p: Pid, wire: Wire)
    requires ProcsTame(w) && CanWork(w, p, Submit(wire))
    ensures Preserves(w, DoSubmit(w, p, wire))
  {
  }

  lemma WorkKeeps(w: World, p: Pid, x: WorkMove)
    requires ProcsTame(w) && CanWork(w, p, x) && !x.Submit?
    ensures Preserves(w, DoWork(w, p, x))
  {
  }

  lemma SweepKeeps(w: World, p: Pid, s: SweepMove)
    requires CanSweep(w, p, s)
    ensures Preserves(w, DoSweep(w, p, s))
  {
  }

  /** A persist that completes a recording stores its job. */
  lemma PersistCompletes(w: World, p: Pid, fault: Fault)
    requires ProcsTame(w) && CanGather(w, p, Persist(fault))
    requires var id := w.procs[p].todo[0].id; Complete(DoPersist(w, p, fault), id) && !Complete(w, id)
    ensures Kept(DoPersist(w, p, fault), w.procs[p].todo[0].id)
  {
    var w' := DoPersist(w, p, fault);
    var it := w.procs[p].todo[0];
    var j := |w'.log| - 1;
    assert Writes(w'.log[j], it.id) && w'.log[j].job == it;
    assert StoredAs(w', it.id, it);
    assert forall other | other in w'.procs[p].todo :: other.id != it.id;
  }

  /** It does not touch one that is complete, nor complete any other. */
  lemma PersistCarries(w: World, p: Pid, fault: Fault, id: Id)
    requires CanGather(w, p, Persist(fault)) && Complete(DoPersist(w, p, fault), id)
    ensures Complete(w, id) ==> Carries(w, DoPersist(w, p, fault), id)
    ensures !Complete(w, id) ==> id == w.procs[p].todo[0].id
  {
  }

  lemma PersistKeeps(w: World, p: Pid, fault: Fault)
    requires ProcsTame(w) && CanGather(w, p, Persist(fault))
    ensures Preserves(w, DoPersist(w, p, fault))
  {
    var w' := DoPersist(w, p, fault);
    forall id | Complete(w', id) ensures if Complete(w, id) then Carries(w, w', id) else Kept(w', id) {
      PersistCarries(w, p, fault, id);
      if !Complete(w, id) {
        PersistCompletes(w, p, fault);
      }
    }
  }

  lemma GatherKeeps(w: World, p: Pid, g: GatherMove)
    requires ProcsTame(w) && CanGather(w, p, g)
    ensures Preserves(w, DoGather(w, p, g))
  {
    if g.Persist? {
      PersistKeeps(w, p, g.fault);
    }
  }

  lemma StepKeeps(w: World, a: Act)
    requires ProcsTame(w) && Enabled(w, a)
    ensures Preserves(w, Do(w, a))
  {
    match a
    case Outside(o) => OutsideKeeps(w, o);
    case AtBox(b) => BoxKeeps(w, b);
    case Work(p, x) => if x.Submit? { SubmitKeeps(w, p, x.wire); } else { WorkKeeps(w, p, x); }
    case Gather(p, g) => GatherKeeps(w, p, g);
    case Sweep(p, s) => SweepKeeps(w, p, s);
    case Exit(p) =>
  }

  // --- one step: the process ---------------------------------------------------------------

  lemma OutsideTame(w: World, o: OutsideMove)
    requires ProcsTame(w) && CanOutside(w, o)
    ensures ProcsTame(DoOutside(w, o))
  {
  }

  lemma BoxTame(w: World, b: BoxMove)
    requires ProcsTame(w) && CanBox(w, b)
    ensures ProcsTame(DoBox(w, b))
  {
  }

  lemma WorkTame(w: World, p: Pid, x: WorkMove)
    requires ProcsTame(w) && CanWork(w, p, x) && (x.Deliver? ==> w.procs == map[])
    ensures ProcsTame(DoWork(w, p, x))
  {
  }

  lemma PersistTame(w: World, p: Pid, fault: Fault)
    requires ProcsTame(w) && CanGather(w, p, Persist(fault))
    ensures ProcsTame(DoPersist(w, p, fault))
  {
  }

  lemma AckTame(w: World, p: Pid, wire: Wire)
    requires ProcsTame(w) && CanGather(w, p, Ack(wire))
    ensures ProcsTame(DoGather(w, p, Ack(wire)))
  {
  }

  lemma GatherTame(w: World, p: Pid, g: GatherMove)
    requires ProcsTame(w) && CanGather(w, p, g) && (g.Open? ==> w.procs == map[])
    ensures ProcsTame(DoGather(w, p, g))
  {
    match g
    case Persist(fault) => PersistTame(w, p, fault);
    case Ack(wire) => AckTame(w, p, wire);
    case _ =>
  }

  lemma PickTame(w: World, p: Pid, stuck: seq<Id>)
    requires ProcsTame(w) && CanSweep(w, p, Pick(stuck))
    ensures ProcsTame(DoSweep(w, p, Pick(stuck)))
  {
  }

  lemma SweepTame(w: World, p: Pid, s: SweepMove)
    requires ProcsTame(w) && CanSweep(w, p, s) && (s.Begin? ==> w.procs == map[])
    ensures ProcsTame(DoSweep(w, p, s))
  {
    if s.Pick? {
      PickTame(w, p, s.stuck);
    }
  }

  lemma StepTame(w: World, a: Act)
    requires ProcsTame(w) && Enabled(w, a) && InTurn(w, a)
    ensures ProcsTame(Do(w, a))
  {
    match a
    case Outside(o) => OutsideTame(w, o);
    case AtBox(b) => BoxTame(w, b);
    case Work(p, x) => WorkTame(w, p, x);
    case Gather(p, g) => GatherTame(w, p, g);
    case Sweep(p, s) => SweepTame(w, p, s);
    case Exit(p) =>
  }

  lemma Step(w: World, a: Act)
    requires Inv(w) && Enabled(w, a) && InTurn(w, a)
    ensures Inv(Do(w, a))
  {
    StepKeeps(w, a);
    StepTame(w, a);
    forall id | Complete(Do(w, a), id) ensures Kept(Do(w, a), id) {
      if Complete(w, id) {
        KeptOver(w, Do(w, a), id);
      }
    }
  }

  // --- what takes a row out of `done` ----------------------------------------------------------

  /** The unconditional writes: a worker past its claim failing or reverting the row, a sweep reverting it,
      a collector storing a failure reported for it. */
  predicate Overrides(w: World, a: Act, id: Id)
    requires Enabled(w, a)
  {
    match a
    case Work(p, x) => (x.Fail? || x.Revert?) && w.procs[p].id == id
    case Sweep(p, s) => s.TakeBack? && w.procs[p].phase.id == id
    case Gather(p, g) =>
      g.Persist? && !g.fault.RolledBack? && w.procs[p].todo[0].id == id &&
      w.procs[p].todo[0].status.Finished? && w.procs[p].todo[0].status.result.Failure?
    case _ => false
  }

  /** Under any interleaving, a step takes a complete recording out of `done` exactly when it is one of those. */
  lemma UndoneExactlyBy(w: World, a: Act, id: Id)
    requires Enabled(w, a) && Complete(w, id) && id in w.born
    requires id in Do(w, a).db.recs && id in Do(w, a).db.events
    ensures Do(w, a).db.recs[id].state != Done <==> Overrides(w, a, id)
    ensures Do(w, a).db.events[id] == w.db.events[id]
  {
    match a
    case Outside(o) => OutsideUndoes(w, o, id);
    case AtBox(b) =>
    case Work(p, x) => WorkUndoes(w, p, x, id);
    case Gather(p, g) => GatherUndoes(w, p, g, id);
    case Sweep(p, s) => SweepUndoes(w, p, s, id);
    case Exit(p) =>
  }

  lemma OutsideUndoes(w: World, o: OutsideMove, id: Id)
    requires CanOutside(w, o) && Complete(w, id) && id in w.born
    requires id in DoOutside(w, o).db.recs && id in DoOutside(w, o).db.events
    ensures DoOutside(w, o).db.recs[id] == w.db.recs[id] && DoOutside(w, o).db.events[id] == w.db.events[id]
  {
  }

  lemma SweepUndoes(w: World, p: Pid, s: SweepMove, id: Id)
    requires CanSweep(w, p, s) && Complete(w, id)
    ensures Complete(DoSweep(w, p, s), id) <==> !(s.TakeBack? && w.procs[p].phase.id == id)
    ensures DoSweep(w, p, s).db.events == w.db.events
  {
  }

  lemma WorkUndoes(w: World, p: Pid, x: WorkMove, id: Id)
    requires CanWork(w, p, x) && Complete(w, id)
    ensures Complete(DoWork(w, p, x), id) <==> !((x.Fail? || x.Revert?) && w.procs[p].id == id)
    ensures DoWork(w, p, x).db.events == w.db.events
  {
  }

  lemma GatherUndoes(w: World, p: Pid, g: GatherMove, id: Id)
    requires CanGather(w, p, g) && Complete(w, id)
    ensures Complete(DoGather(w, p, g), id) <==> !Overrides(w, Gather(p, g), id)
    ensures id in DoGather(w, p, g).db.events && DoGather(w, p, g).db.events[id] == w.db.events[id]
  {
  }

  /** In turn, none of them ever happens. */
  lemma NeverOverridden(w: World, a: Act, id: Id)
    requires Inv(w) && Enabled(w, a) && Complete(w, id)
    ensures !Overrides(w, a, id)
  {
  }

  // --- whole runs ------------------------------------------------------------------------------

  lemma {:induction false} RunKeeps(w: World, acts: seq<Act>)
    requires Inv(w) && Legal(w, acts) && Serialised(w, acts)
    ensures Inv(Run(w, acts))
    decreases |acts|
  {
    if acts != [] {
      Step(w, acts[0]);
      RunKeeps(Do(w, acts[0]), acts[1..]);
    }
  }

  /** In every serialised run, wherever processes died: a complete recording shows the transcript that the
      transaction making it `done` stored, and the box holds for its id exactly that result or nothing. */
  lemma DoneIsStored(start: World, acts: seq<Act>, id: Id)
    requires Initial(start) && Legal(start, acts) && Serialised(start, acts)
    requires Complete(Run(start, acts), id)
    ensures exists job :: StoredAs(Run(start, acts), id, job) && OnBox(Run(start, acts), id, job)
  {
    RunKeeps(start, acts);
    assert Kept(Run(start, acts), id);
  }

  /** And it stays complete, with the same text, for as long as its row and its event exist. */
  lemma {:induction false} DoneStays(w: World, acts: seq<Act>, id: Id)
    requires Inv(w) && Legal(w, acts) && Serialised(w, acts) && Complete(w, id)
    requires id in Run(w, acts).db.recs && id in Run(w, acts).db.events
    ensures Complete(Run(w, acts), id) && Run(w, acts).db.events[id] == w.db.events[id]
    decreases |acts|
  {
    if acts != [] {
      var next := Do(w, acts[0]);
      Step(w, acts[0]);
      Existed(next, acts[1..], id);
      NeverOverridden(w, acts[0], id);
      UndoneExactlyBy(w, acts[0], id);
      DoneStays(next, acts[1..], id);
    }
  }

  /** Rows and events are created once, under an id that is never used again. */
  lemma {:induction false} Existed(w: World, acts: seq<Act>, id: Id)
    requires Legal(w, acts) && id in w.born
    ensures id in Run(w, acts).db.recs ==> id in w.db.recs
    ensures id in Run(w, acts).db.events ==> id in w.db.events
    decreases |acts|
  {
    if acts != [] {
      BornOnce(w, acts[0], id);
      Existed(Do(w, acts[0]), acts[1..], id);
    }
  }

  lemma BornOnce(w: World, a: Act, id: Id)
    requires Enabled(w, a) && id in w.born
    ensures id in Do(w, a).born
    ensures id in Do(w, a).db.recs ==> id in w.db.recs
    ensures id in Do(w, a).db.events ==> id in w.db.events
  {
    match a
    case Work(p, x) => WorkBorn(w, p, x);
    case Gather(p, g) => GatherBorn(w, p, g);
    case Sweep(p, s) => SweepBorn(w, p, s);
    case _ =>
  }

  predicate SameKeys(w: World, w': World) {
    w'.born == w.born && w'.db.recs.Keys == w.db.recs.Keys && w'.db.events.Keys == w.db.events.Keys
  }

  lemma WorkBorn(w: World, p: Pid, x: WorkMove)
    requires CanWork(w, p, x)
    ensures SameKeys(w, DoWork(w, p, x))
  {
  }

  lemma GatherBorn(w: World, p: Pid, g: GatherMove)
    requires CanGather(w, p, g)
    ensures SameKeys(w, DoGather(w, p, g))
  {
  }

  lemma SweepBorn(w: World, p: Pid, s: SweepMove)
    requires CanSweep(w, p, s)
    ensures SameKeys(w, DoSweep(w, p, s))
  {
  }

  /** So in every serialised run from the start, a recording once complete stays so to the end. */
  lemma OnceDoneAlwaysDone(start: World, first: seq<Act>, rest: seq<Act>, id: Id)
    requires Initial(start) && Legal(start, first) && Serialised(start, first)
    requires Legal(Run(start, first), rest) && Serialised(Run(start, first), rest)
    requires Complete(Run(start, first), id)
    requires var w := Run(Run(start, first), rest); id in w.db.recs && id in w.db.events
    ensures var w := Run(Run(start, first), rest);
            Complete(w, id) && w.db.events[id] == Run(start, first).db.events[id]
  {
    RunKeeps(start, first);
    DoneStays(Run(start, first), rest, id);
  }
}
