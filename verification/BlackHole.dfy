/** The black holes recovery does have. All three are made by finished transcripts longer than the column they are meant
    for: the recording such a transcript belongs to, the lost recordings stuck behind a batch of such recordings, and
    everybody once such transcripts can fill a page. Here for all runs, whatever runs beside what and dies where. */
module BlackHole {
  import opened Wrappers
  import opened Core
  import opened Protocol
  import opened Paths
  import opened Scenarios
  import Effects
  import Recovery
  import Exactness

  predicate Unstorable(status: Status) {
    status.Finished? && status.result.Transcript? && status.result.text.Some? && |status.result.text.value| > 2000
  }

  // --- a claimable row, and its audio still the same -------------------------------------------

  predicate WorkerHarmless(w: World, id: Id, pc: Pc)
    requires id in w.db.recs && id in w.box
  {
    match pc
    case Found(rec) => rec.storageKey == w.db.recs[id].storageKey
    case Owned(rec) => rec.storageKey == w.db.recs[id].storageKey
    case Linked(rec) => rec.storageKey == w.db.recs[id].storageKey
    case Holding(audio) => audio == w.box[id].audio
    case Conflicted(_) => false
    case Cleared(_) => false
    case _ => true
  }

  /** The box holds an unstorable transcript of exactly the audio in the bucket. */
  predicate Stuck(w: World, id: Id) {
    && id in w.born && id in w.db.recs && id in w.db.events && w.db.recs[id].state != Done
    && id in w.box && Unstorable(w.box[id].status)
    && w.db.recs[id].storageKey in w.objects && w.objects[w.db.recs[id].storageKey] == w.box[id].audio
  }

  ghost predicate WorkersHarmless(w: World, id: Id)
    requires id in w.db.recs && id in w.box
  {
    forall p | WorkerAt(w, p) && w.procs[p].id == id :: WorkerHarmless(w, id, w.procs[p].pc)
  }

  ghost predicate PagesUseless(w: World, id: Id)
    requires id in w.box
  {
    forall p | CollectorAt(w, p) ::
      && (forall it | it in w.procs[p].todo && it.id == id :: it == ItemOf(w.box, id))
      && (forall it | it in w.procs[p].ackable :: it.id != id)
  }

  /** Stuck, and nothing in flight is about to change that. */
  ghost predicate Doomed(w: World, id: Id) {
    Stuck(w, id) && WorkersHarmless(w, id) && PagesUseless(w, id)
  }

  /** What can free the row: expiry on the box, other bytes in the bucket, or deletion. */
  predicate Frees(w: World, a: Act, id: Id)
    requires id in w.db.recs
  {
    || a == AtBox(Expire(id))
    || a == Outside(DeleteEvent(id)) || a == Outside(DeleteRow(id))
    || (a.Outside? && a.o.Upload? && a.o.key == w.db.recs[id].storageKey)
  }

  ghost predicate Trapped(w: World, acts: seq<Act>, id: Id)
    requires Legal(w, acts)
    decreases |acts|
  {
    acts == [] || (id in w.db.recs && !Frees(w, acts[0], id) && Trapped(Do(w, acts[0]), acts[1..], id))
  }

  lemma OutsideStep(w: World, o: OutsideMove, id: Id)
    requires Doomed(w, id) && CanOutside(w, o) && !Frees(w, Outside(o), id)
    ensures Doomed(DoOutside(w, o), id)
  {
  }

  lemma BoxStep(w: World, b: BoxMove, id: Id)
    requires Doomed(w, id) && CanBox(w, b) && !Frees(w, AtBox(b), id)
    ensures Doomed(DoBox(w, b), id)
  {
  }

  lemma WorkRow(w: World, p: Pid, x: WorkMove, id: Id)
    requires Stuck(w, id) && WorkersHarmless(w, id) && CanWork(w, p, x)
    ensures Stuck(DoWork(w, p, x), id) && DoWork(w, p, x).box[id] == w.box[id]
    ensures DoWork(w, p, x).db.recs[id].storageKey == w.db.recs[id].storageKey
  {
  }

  lemma WorkProc(w: World, p: Pid, x: WorkMove, id: Id)
    requires Stuck(w, id) && WorkersHarmless(w, id) && CanWork(w, p, x)
    ensures WorkerAt(DoWork(w, p, x), p) && DoWork(w, p, x).procs[p].id == id ==>
              WorkerHarmless(w, id, DoWork(w, p, x).procs[p].pc)
    ensures DoWork(w, p, x).procs - {p} == w.procs - {p}
    ensures p in DoWork(w, p, x).procs ==> DoWork(w, p, x).procs[p].Worker?
  {
  }

  lemma WorkStep(w: World, w': World, p: Pid, id: Id)
    requires Doomed(w, id) && Stuck(w', id) && w'.box[id] == w.box[id]
    requires w'.db.recs[id].storageKey == w.db.recs[id].storageKey
    requires w'.procs - {p} == w.procs - {p} && (p in w'.procs ==> w'.procs[p].Worker?)
    requires WorkerAt(w', p) && w'.procs[p].id == id ==> WorkerHarmless(w, id, w'.procs[p].pc)
    ensures Doomed(w', id)
  {
    forall q | q in w'.procs && q != p ensures q in w.procs && w'.procs[q] == w.procs[q] {
      assert q in w'.procs - {p};
    }
  }

  /** The row and the page, if its own result is persisted once more. */
  lemma PersistRow(w: World, p: Pid, fault: Fault, id: Id)
    requires Doomed(w, id) && CanGather(w, p, Persist(fault))
    ensures var w' := DoPersist(w, p, fault);
            && w'.box == w.box && w'.objects == w.objects && w'.born == w.born
            && id in w'.db.recs && id in w'.db.events
            && w'.db.recs[id] == w.db.recs[id]
            && w'.procs == w.procs[p := w'.procs[p]] && w'.procs[p].Collector? && w'.procs[p].todo == w.procs[p].todo[1..]
            && forall it | it in w'.procs[p].ackable :: it.id != id
  {
    var it := w.procs[p].todo[0];
    if it.id == id {
      assert Judge(w.db, id, it.status) == Refused;
    }
  }

  lemma PersistStep(w: World, p: Pid, fault: Fault, id: Id)
    requires Doomed(w, id) && CanGather(w, p, Persist(fault))
    ensures Doomed(DoPersist(w, p, fault), id)
  {
    PersistRow(w, p, fault, id);
    StillDoomed(w, DoPersist(w, p, fault), p, id);
  }

  lemma StillDoomed(w: World, w': World, p: Pid, id: Id)
    requires Doomed(w, id) && CollectorAt(w, p)
    requires w'.box == w.box && w'.objects == w.objects && w'.born == w.born
    requires id in w'.db.recs && id in w'.db.events && w'.db.recs[id] == w.db.recs[id]
    requires p in w'.procs && w'.procs == w.procs[p := w'.procs[p]] && w'.procs[p].Collector?
    requires forall it | it in w'.procs[p].todo :: it in w.procs[p].todo
    requires forall it | it in w'.procs[p].ackable :: it.id != id
    ensures Doomed(w', id)
  {
  }

  lemma GatherStep(w: World, p: Pid, g: GatherMove, id: Id)
    requires Doomed(w, id) && CanGather(w, p, g)
    ensures Doomed(DoGather(w, p, g), id)
  {
    if g.Persist? {
      PersistStep(w, p, g.fault, id);
    }
  }

  lemma SweepRow(w: World, p: Pid, s: SweepMove, id: Id)
    requires Stuck(w, id) && CanSweep(w, p, s)
    ensures Stuck(DoSweep(w, p, s), id) && DoSweep(w, p, s).box == w.box
    ensures DoSweep(w, p, s).db.recs[id].storageKey == w.db.recs[id].storageKey
  {
  }

  lemma SweepProcs(w: World, p: Pid, s: SweepMove)
    requires CanSweep(w, p, s)
    ensures forall q | q in DoSweep(w, p, s).procs && !DoSweep(w, p, s).procs[q].Sweeper? ::
              q in w.procs && DoSweep(w, p, s).procs[q] == w.procs[q]
  {
  }

  lemma SweepStep(w: World, p: Pid, s: SweepMove, id: Id)
    requires Doomed(w, id) && CanSweep(w, p, s)
    ensures Doomed(DoSweep(w, p, s), id)
  {
    SweepRow(w, p, s, id);
    SweepProcs(w, p, s);
    OthersHarmless(w, DoSweep(w, p, s), id);
  }

  lemma OthersHarmless(w: World, w': World, id: Id)
    requires Doomed(w, id) && Stuck(w', id) && w'.box == w.box && w'.db.recs[id].storageKey == w.db.recs[id].storageKey
    requires forall q | q in w'.procs && !w'.procs[q].Sweeper? :: q in w.procs && w'.procs[q] == w.procs[q]
    ensures Doomed(w', id)
  {
  }

  lemma Step(w: World, a: Act, id: Id)
    requires Doomed(w, id) && Enabled(w, a) && !Frees(w, a, id)
    ensures Doomed(Do(w, a), id)
  {
    match a
    case Outside(o) => OutsideStep(w, o, id);
    case AtBox(b) => BoxStep(w, b, id);
    case Work(p, x) =>
      WorkRow(w, p, x, id);
      WorkProc(w, p, x, id);
      WorkStep(w, Do(w, a), p, id);
    case Gather(p, g) => GatherStep(w, p, g, id);
    case Sweep(p, s) => SweepStep(w, p, s, id);
    case Exit(p) =>
  }

  /** Once doomed, no run whatsoever completes the recording, unless its result expires, its audio is
      overwritten or it is deleted. */
  lemma {:induction false} NeverDone(w: World, acts: seq<Act>, id: Id)
    requires Doomed(w, id) && Legal(w, acts) && Trapped(w, acts, id)
    ensures Doomed(Run(w, acts), id) && Run(w, acts).db.recs[id].state != Done
    decreases |acts|
  {
    if acts != [] {
      Step(w, acts[0], id);
      NeverDone(Do(w, acts[0]), acts[1..], id);
    }
  }

  // --- a row that waits for its result ---------------------------------------------------------

  /** The row waits for a result that the box has and that cannot be stored. */
  predicate Waiting(w: World, id: Id) {
    && id in w.born && id in w.db.recs && id in w.db.events && w.db.recs[id].state == Transcribing
    && id in w.box && Unstorable(w.box[id].status)
  }

  /** The process is not about to move it: an attempt has not claimed it, a sweep has not found it lost, and a page shows
      what the box has. */
  predicate Harmless(w: World, proc: Proc, id: Id)
    requires id in w.box
  {
    match proc
    case Worker(r, pc) => r == id ==> pc.Found?
    case Collector(todo, ackable) =>
      (forall it | it in todo && it.id == id :: it == ItemOf(w.box, id)) && (forall it | it in ackable :: it.id != id)
    case Sweeper(_, phase, _, _, _) => phase.Losing? ==> phase.id != id
  }

  ghost predicate LeftAlone(w: World, id: Id)
    requires id in w.box
  {
    forall p | p in w.procs :: Harmless(w, w.procs[p], id)
  }

  ghost predicate Pinned(w: World, id: Id) {
    Waiting(w, id) && LeftAlone(w, id)
  }

  /** What can release it. Other bytes in the bucket are not among it. */
  predicate Releases(a: Act, id: Id) {
    a == AtBox(Expire(id)) || a == Outside(DeleteEvent(id)) || a == Outside(DeleteRow(id))
  }

  ghost predicate PinnedStill(w: World, w': World, id: Id) {
    Pinned(w', id) && id in w.db.recs && w'.db.recs[id] == w.db.recs[id]
  }

  lemma OutsidePins(w: World, o: OutsideMove, id: Id)
    requires Pinned(w, id) && CanOutside(w, o) && !Releases(Outside(o), id)
    ensures PinnedStill(w, DoOutside(w, o), id)
  {
  }

  lemma BoxPins(w: World, b: BoxMove, id: Id)
    requires Pinned(w, id) && CanBox(w, b) && !Releases(AtBox(b), id)
    ensures PinnedStill(w, DoBox(w, b), id)
  {
  }

  lemma SubmitPins(w: World, p: Pid, wire: Wire, id: Id)
    requires Pinned(w, id) && CanWork(w, p, Submit(wire))
    ensures PinnedStill(w, DoSubmit(w, p, wire), id)
  {
  }

  lemma WorkPins(w: World, p: Pid, x: WorkMove, id: Id)
    requires Pinned(w, id) && CanWork(w, p, x) && !x.Submit?
    ensures PinnedStill(w, DoWork(w, p, x), id)
  {
  }

  lemma PersistPins(w: World, p: Pid, fault: Fault, id: Id)
    requires Pinned(w, id) && CanGather(w, p, Persist(fault))
    ensures PinnedStill(w, DoPersist(w, p, fault), id)
  {
    var it := w.procs[p].todo[0];
    if it.id == id {
      assert Judge(w.db, id, it.status) == Refused;
    }
  }

  lemma GatherPins(w: World, p: Pid, g: GatherMove, id: Id)
    requires Pinned(w, id) && CanGather(w, p, g) && !g.Persist?
    ensures PinnedStill(w, DoGather(w, p, g), id)
  {
  }

  lemma SweepPins(w: World, p: Pid, s: SweepMove, id: Id)
    requires Pinned(w, id) && CanSweep(w, p, s)
    ensures PinnedStill(w, DoSweep(w, p, s), id)
  {
  }

  lemma StepPins(w: World, a: Act, id: Id)
    requires Pinned(w, id) && Enabled(w, a) && !Releases(a, id)
    ensures PinnedStill(w, Do(w, a), id)
  {
    match a
    case Outside(o) => OutsidePins(w, o, id);
    case AtBox(b) => BoxPins(w, b, id);
    case Work(p, x) => if x.Submit? { SubmitPins(w, p, x.wire, id); } else { WorkPins(w, p, x, id); }
    case Gather(p, g) => if g.Persist? { PersistPins(w, p, g.fault, id); } else { GatherPins(w, p, g, id); }
    case Sweep(p, s) => SweepPins(w, p, s, id);
    case Exit(p) =>
  }

  /** No run moves the row, whatever is uploaded, unless the result expires or row or event is deleted. */
  lemma {:induction false} PinnedForGood(w: World, acts: seq<Act>, id: Id)
    requires Pinned(w, id) && Legal(w, acts) && forall a | a in acts :: !Releases(a, id)
    ensures PinnedStill(w, Run(w, acts), id)
    decreases |acts|
  {
    if acts != [] {
      StepPins(w, acts[0], id);
      PinnedForGood(Do(w, acts[0]), acts[1..], id);
    }
  }

  // --- a lost row behind a batch of them -------------------------------------------------------

  /** The process is not about to move a row whose job the box lost. */
  predicate HandsOff(proc: Proc, id: Id) {
    match proc
    case Worker(r, pc) => r == id ==> pc.Found?
    case Collector(todo, _) => forall it | it in todo :: it.id != id
    case Sweeper(_, phase, rows, _, _) => (phase.Losing? ==> phase.id != id) && (!phase.Sending? ==> id !in rows)
  }

  /** A stuck row whose job the box lost, in nobody's hands. */
  ghost predicate Stranded(w: World, id: Id) {
    && id in w.born && id in w.db.recs && w.db.recs[id].state == Transcribing && id !in w.box
    && forall p | p in w.procs :: HandsOff(w.procs[p], id)
  }

  /** The rows in `front` are pinned, as old or older, and as many as a batch has places. */
  ghost predicate Fronted(w: World, id: Id, front: set<Id>) {
    && id in w.db.recs && id !in front && |front| >= w.cfg.batchLimit
    && forall b | b in front :: Pinned(w, b) && w.db.recs[b].updatedAt <= w.db.recs[id].updatedAt
  }

  /** Of rows of equal age, the batch has those in `front` first. */
  predicate TiesLast(w: World, id: Id, front: set<Id>, stuck: seq<Id>) {
    id in stuck ==>
      forall b | b in front && b in w.db.recs && id in w.db.recs && w.db.recs[b].updatedAt == w.db.recs[id].updatedAt ::
        b in stuck
  }

  predicate PicksTiesLast(w: World, a: Act, id: Id, front: set<Id>) {
    a.Sweep? && a.s.Pick? ==> TiesLast(w, id, front, a.s.stuck)
  }

  ghost predicate Starved(w: World, id: Id, front: set<Id>) {
    Stranded(w, id) && Fronted(w, id, front)
  }

  /** No batch reaches the row. */
  lemma BatchStopsShort(w: World, id: Id, front: set<Id>, cutoff: int, stuck: seq<Id>)
    requires Fronted(w, id, front) && IsBatch(w.db.recs, Transcribing, cutoff, w.cfg.batchLimit, stuck)
    requires TiesLast(w, id, front, stuck)
    ensures id !in stuck
  {
    if id in stuck {
      var i :| 0 <= i < |stuck| && stuck[i] == id;
      assert id in Stale(w.db.recs, Transcribing, cutoff);
      forall b | b in front ensures b in stuck {
        assert b in Stale(w.db.recs, Transcribing, cutoff);
        assert i == |stuck| - 1 || w.db.recs[stuck[i]].updatedAt <= w.db.recs[stuck[|stuck| - 1]].updatedAt;
      }
      Fits(stuck, front + {id});
    }
  }

  /** What can free it. */
  predicate Unblocks(a: Act, id: Id, front: set<Id>) {
    a == Outside(DeleteRow(id)) || exists b :: b in front && Releases(a, b)
  }

  ghost predicate StrandedStill(w: World, w': World, id: Id) {
    Stranded(w', id) && id in w.db.recs && w'.db.recs[id] == w.db.recs[id] && w'.cfg == w.cfg
  }

  lemma OutsideStrands(w: World, o: OutsideMove, id: Id)
    requires Stranded(w, id) && CanOutside(w, o) && o != DeleteRow(id)
    ensures StrandedStill(w, DoOutside(w, o), id)
  {
  }

  lemma WorkStrands(w: World, p: Pid, x: WorkMove, id: Id)
    requires Stranded(w, id) && CanWork(w, p, x)
    ensures StrandedStill(w, DoWork(w, p, x), id)
  {
  }

  lemma GatherStrands(w: World, p: Pid, g: GatherMove, id: Id)
    requires Stranded(w, id) && CanGather(w, p, g)
    ensures StrandedStill(w, DoGather(w, p, g), id)
  {
  }

  lemma SweepStrands(w: World, p: Pid, s: SweepMove, id: Id)
    requires Stranded(w, id) && CanSweep(w, p, s) && (s.Pick? ==> id !in s.stuck)
    ensures StrandedStill(w, DoSweep(w, p, s), id)
  {
  }

  lemma StepStrands(w: World, a: Act, id: Id)
    requires Stranded(w, id) && Enabled(w, a) && a != Outside(DeleteRow(id))
    requires a.Sweep? && a.s.Pick? ==> id !in a.s.stuck
    ensures StrandedStill(w, Do(w, a), id)
  {
    match a
    case Outside(o) => OutsideStrands(w, o, id);
    case AtBox(b) =>
    case Work(p, x) => WorkStrands(w, p, x, id);
    case Gather(p, g) => GatherStrands(w, p, g, id);
    case Sweep(p, s) => SweepStrands(w, p, s, id);
    case Exit(p) =>
  }

  lemma StepStarves(w: World, a: Act, id: Id, front: set<Id>)
    requires Starved(w, id, front) && Enabled(w, a) && !Unblocks(a, id, front) && PicksTiesLast(w, a, id, front)
    ensures Starved(Do(w, a), id, front) && StrandedStill(w, Do(w, a), id)
    ensures forall b | b in front :: PinnedStill(w, Do(w, a), b)
  {
    if a.Sweep? && a.s.Pick? {
      BatchStopsShort(w, id, front, w.procs[a.p].began - w.cfg.staleSubmitted, a.s.stuck);
    }
    StepStrands(w, a, id);
    forall b | b in front ensures PinnedStill(w, Do(w, a), b) {
      StepPins(w, a, b);
    }
  }

  lemma TiesStay(w: World, w': World, id: Id, front: set<Id>, acts: seq<Act>)
    requires StrandedStill(w, w', id) && forall b | b in front :: PinnedStill(w, w', b)
    requires forall a | a in acts :: PicksTiesLast(w, a, id, front)
    ensures forall a | a in acts :: PicksTiesLast(w', a, id, front)
  {
    forall a | a in acts ensures PicksTiesLast(w', a, id, front) {
      assert PicksTiesLast(w, a, id, front);
    }
  }

  /** No run moves the row in which, of rows of equal age, those in front come first - if all of them are older, no run at
      all - unless one of the rows in front is released or the row itself is deleted. */
  lemma {:induction false} StarvedForGood(w: World, acts: seq<Act>, id: Id, front: set<Id>)
    requires Starved(w, id, front) && Legal(w, acts) && forall a | a in acts :: !Unblocks(a, id, front)
    requires forall a | a in acts :: PicksTiesLast(w, a, id, front)
    ensures Starved(Run(w, acts), id, front)
    decreases |acts|
  {
    if acts != [] {
      assert acts[0] in acts && forall a | a in acts[1..] :: a in acts;
      StepStarves(w, acts[0], id, front);
      TiesStay(w, Do(w, acts[0]), id, front, acts[1..]);
      StarvedForGood(Do(w, acts[0]), acts[1..], id, front);
    }
  }

  /** With older rows only, every batch is like that; with some of equal age, there is always one that is. */
  lemma TiesCanBeLast(w: World, id: Id, front: set<Id>, cutoff: int)
    requires Starved(w, id, front)
    ensures exists stuck ::
              IsBatch(w.db.recs, Transcribing, cutoff, w.cfg.batchLimit, stuck) && TiesLast(w, id, front, stuck)
    ensures (forall b | b in front :: w.db.recs[b].updatedAt < w.db.recs[id].updatedAt) ==>
              forall stuck :: TiesLast(w, id, front, stuck)
  {
    var stuck := ABatchWithout(w.db.recs, Transcribing, cutoff, w.cfg.batchLimit, id, front);
    assert TiesLast(w, id, front, stuck);
  }

  // --- everybody behind a page of them ---------------------------------------------------------

  /** Enough pinned rows to fill a page. */
  ghost predicate Filled(w: World, clog: set<Id>) {
    |clog| >= MAX_LIST_LIMIT && forall r | r in clog :: Pinned(w, r)
  }

  predicate NotDone(w: World, id: Id) {
    id in w.born && (id in w.db.recs ==> w.db.recs[id].state != Done)
  }

  /** The pages in flight show nothing else. */
  ghost predicate PagesOf(w: World, clog: set<Id>) {
    forall p | CollectorAt(w, p) :: forall it | it in w.procs[p].todo :: it.id in clog
  }

  ghost predicate Clogged(w: World, id: Id, clog: set<Id>) {
    Filled(w, clog) && id !in clog && NotDone(w, id) && PagesOf(w, clog)
  }

  /** The box draws its pages from these jobs. */
  predicate DrawnFrom(a: Act, clog: set<Id>) {
    a.Gather? && a.g.Drain? ==> forall it | it in a.g.page :: it.id in clog
  }

  predicate ReleasesAny(a: Act, clog: set<Id>) {
    exists r :: r in clog && Releases(a, r)
  }

  /** That is always an honest answer. */
  lemma ClogPage(w: World, clog: set<Id>) returns (page: seq<Item>)
    requires Filled(w, clog)
    ensures IsPage(w.box, page) && forall it | it in page :: it.id in clog
  {
    page := APage(w.box, clog);
    assert forall it | it in page :: it.id in Ids(page);
  }

  lemma WorkClogs(w: World, p: Pid, x: WorkMove, id: Id, clog: set<Id>)
    requires NotDone(w, id) && PagesOf(w, clog) && CanWork(w, p, x)
    ensures NotDone(DoWork(w, p, x), id) && PagesOf(DoWork(w, p, x), clog)
  {
  }

  lemma GatherClogs(w: World, p: Pid, g: GatherMove, id: Id, clog: set<Id>)
    requires NotDone(w, id) && PagesOf(w, clog) && id !in clog && CanGather(w, p, g) && DrawnFrom(Gather(p, g), clog)
    ensures NotDone(DoGather(w, p, g), id) && PagesOf(DoGather(w, p, g), clog)
  {
    if g.Persist? {
      assert w.procs[p].todo[0] in w.procs[p].todo;
    }
  }

  lemma SweepClogs(w: World, p: Pid, s: SweepMove, id: Id, clog: set<Id>)
    requires NotDone(w, id) && PagesOf(w, clog) && CanSweep(w, p, s)
    ensures NotDone(DoSweep(w, p, s), id) && PagesOf(DoSweep(w, p, s), clog)
  {
  }

  lemma OutsideClogs(w: World, o: OutsideMove, id: Id, clog: set<Id>)
    requires NotDone(w, id) && PagesOf(w, clog) && CanOutside(w, o)
    ensures NotDone(DoOutside(w, o), id) && PagesOf(DoOutside(w, o), clog)
  {
  }

  lemma BoxClogs(w: World, b: BoxMove, id: Id, clog: set<Id>)
    requires NotDone(w, id) && PagesOf(w, clog) && CanBox(w, b)
    ensures NotDone(DoBox(w, b), id) && PagesOf(DoBox(w, b), clog)
  {
  }

  lemma FilledStays(w: World, a: Act, clog: set<Id>)
    requires Filled(w, clog) && Enabled(w, a) && !ReleasesAny(a, clog)
    ensures Filled(Do(w, a), clog)
  {
    forall r | r in clog ensures Pinned(Do(w, a), r) {
      StepPins(w, a, r);
    }
  }

  lemma OthersWait(w: World, a: Act, id: Id, clog: set<Id>)
    requires NotDone(w, id) && PagesOf(w, clog) && id !in clog && Enabled(w, a) && DrawnFrom(a, clog)
    ensures NotDone(Do(w, a), id) && PagesOf(Do(w, a), clog)
  {
    match a
    case Outside(o) => OutsideClogs(w, o, id, clog);
    case AtBox(b) => BoxClogs(w, b, id, clog);
    case Work(p, x) => WorkClogs(w, p, x, id, clog);
    case Gather(p, g) => GatherClogs(w, p, g, id, clog);
    case Sweep(p, s) => SweepClogs(w, p, s, id, clog);
    case Exit(p) =>
  }

  lemma StepClogs(w: World, a: Act, id: Id, clog: set<Id>)
    requires Clogged(w, id, clog) && Enabled(w, a) && !ReleasesAny(a, clog) && DrawnFrom(a, clog)
    ensures Clogged(Do(w, a), id, clog)
  {
    FilledStays(w, a, clog);
    OthersWait(w, a, id, clog);
  }

  /** As long as the box draws its pages from them, and none of them is released, no run whatsoever completes any other
      recording; and the next page can be drawn from them again. */
  lemma {:induction false} CloggedForGood(w: World, acts: seq<Act>, id: Id, clog: set<Id>)
    requires Clogged(w, id, clog) && Legal(w, acts)
    requires forall a | a in acts :: !ReleasesAny(a, clog) && DrawnFrom(a, clog)
    ensures Clogged(Run(w, acts), id, clog)
    decreases |acts|
  {
    if acts != [] {
      assert acts[0] in acts && forall a | a in acts[1..] :: a in acts;
      StepClogs(w, acts[0], id, clog);
      CloggedForGood(Do(w, acts[0]), acts[1..], id, clog);
    }
  }

  // --- they do happen --------------------------------------------------------------------------

  /** A transcript one character longer than its column. */
  lemma TooLong() returns (result: Result)
    ensures Unstorable(Finished(result))
  {
    result := Transcript(Some(seq(MAX_TEXT + 1, _ => 'x')));
  }

  /** It does happen: one recording whose transcript is one character too long. */
  lemma DoomedIsReachable() returns (w: World)
    ensures Reachable(w) && Doomed(w, ID)
  {
    SubmittedIsReachable(CFG);
    var result := TooLong();
    BoxWorkIsRun(Submitted(CFG), ID, result);
    w := WorkedOff(Submitted(CFG), ID, result);
  }

  const LOST: Id := "s"
  const LOST_KEY := "v0/u/s.m4a"
  const LOST_REC := Recording("u", LOST_KEY, None, Pending, None, 1)

  /** A recording whose result cannot be stored, and a batch that has room for one row. */
  lemma OneRefused() returns (w: World)
    ensures Reachable(w) && w.cfg == CFG.(batchLimit := 1) && w.procs == map[] && w.now == 0 && w.born == {ID}
    ensures w.db == ClaimRow(Db(map[ID := REC], map[ID := EVENT]), ID, 0) && Effects.RefusedFor(w, ID) && w.box.Keys == {ID}
  {
    var cfg := CFG.(batchLimit := 1);
    SubmittedIsReachable(cfg);
    var result := TooLong();
    BoxWorkIsRun(Submitted(cfg), ID, result);
    w := WorkedOff(Submitted(cfg), ID, result);
  }

  /** Later another recording is created, its audio arrives and its task is queued. */
  lemma AnotherUploaded() returns (w: World)
    ensures Reachable(w) && w.cfg == CFG.(batchLimit := 1) && w.procs == map[] && w.now == 1 && LOST in w.queue
    ensures ID in w.db.recs && w.db.recs[ID].state == Transcribing && w.db.recs[ID].updatedAt == 0
    ensures LOST in w.db.recs && w.db.recs[LOST] == LOST_REC && LOST in w.db.events
    ensures LOST_KEY in w.objects && w.objects[LOST_KEY] == [] && w.box.Keys == {ID} && Effects.RefusedFor(w, ID)
  {
    var w0 := OneRefused();
    ReachableNext(w0, Outside(Tick(1)));
    w := Arrives(w0.(now := 1), LOST, LOST_KEY);
  }

  /** The second hole happens too: the second recording's attempt dies after its claim, and the first one's refused result
      fills every batch in front of it. */
  lemma CrowdedIsReachable() returns (w: World)
    ensures Reachable(w) && w.procs == map[] && w.cfg.batchLimit > 0
    ensures Effects.Acceptable(w, LOST) && Recovery.Crowded(w, LOST) && !Recovery.OwnResultStuck(w, LOST)
    ensures !Recovery.Clogged(w, LOST) && !Exactness.Finishable(w, LOST)
  {
    var w1 := AnotherUploaded();
    ReachableNext(w1, Work(0, Deliver(LOST)));
    var w2 := SetProc(w1, 0, Worker(LOST, Found(LOST_REC)));
    ReachableNext(w2, Work(0, Claim));
    var w3 := DoWork(w2, 0, Claim);
    ReachableNext(w3, Exit(0));
    w := Gone(w3, 0);
    assert w.procs == map[];
    assert ID in Recovery.Blockers(w, LOST);
    SetSizes({ID}, Recovery.Blockers(w, LOST));
    SetSizes(Recovery.Clog(w, LOST), {ID});
    Exactness.FinishableExactly(w, LOST);
  }

  // --- a page of them ----------------------------------------------------------------------------

  function Name(k: nat): (id: Id)
    ensures |id| == k && forall c | c in id :: c == 'x'
  {
    if k == 0 then "" else Name(k - 1) + ['x']
  }

  function Names(n: nat): (names: set<Id>)
    ensures |names| == n && forall id | id in names :: |id| < n && forall c | c in id :: c == 'x'
  {
    if n == 0 then {} else Names(n - 1) + {Name(n - 1)}
  }

  /** These recordings wait for results that cannot be stored, and nothing else is there. */
  ghost predicate Hoard(w: World, names: set<Id>) {
    && w.cfg == CFG && w.procs == map[] && w.born == names && w.box.Keys == names
    && forall id | id in names :: Waiting(w, id)
  }

  lemma StillWaiting(w: World, id: Id, key: string, result: Result, r: Id)
    requires Waiting(w, r) && r != id
    ensures Waiting(Served(w, id, key, result), r)
  {
  }

  lemma HoardGrows(w: World, names: set<Id>, id: Id, result: Result)
    requires Reachable(w) && Hoard(w, names) && id !in names && Unstorable(Finished(result))
    ensures Reachable(Served(w, id, "", result)) && Hoard(Served(w, id, "", result), names + {id})
  {
    ServedIsReachable(w, id, "", result);
    forall r | r in names ensures Waiting(Served(w, id, "", result), r) {
      StillWaiting(w, id, "", result, r);
    }
  }

  lemma NoneYet() returns (w: World)
    ensures Reachable(w) && Hoard(w, {})
  {
    w := Init(CFG, 0);
    assert Initial(w) && Legal(w, []) && Run(w, []) == w;
  }

  lemma {:induction false} ManyRefused(n: nat) returns (w: World, names: set<Id>)
    ensures Reachable(w) && Hoard(w, names) && names == Names(n) && |names| == n && ID !in names
    decreases n
  {
    if n == 0 {
      w := NoneYet();
      names := {};
    } else {
      w, names := ManyRefused(n - 1);
      var result := TooLong();
      HoardGrows(w, names, Name(n - 1), result);
      w, names := Served(w, Name(n - 1), "", result), names + {Name(n - 1)};
      assert 'r' in ID;
    }
  }

  lemma PageOfRefused(n: nat) returns (w: World, names: set<Id>)
    ensures Reachable(w) && Hoard(w, names) && |names| == n && ID !in names
  {
    w, names := ManyRefused(n);
  }

  const FITS := Transcript(Some("x"))

  /** One more recording, whose transcript is there and fits. */
  lemma OneMoreReady(w: World, names: set<Id>) returns (w': World)
    requires Reachable(w) && Hoard(w, names) && ID !in names
    ensures Reachable(w') && w'.cfg == CFG && w'.procs == map[] && NotDone(w', ID)
    ensures Effects.Acceptable(w', ID) && ID in Effects.Ready(w') && forall id | id in names :: Waiting(w', id)
  {
    ServedIsReachable(w, ID, KEY, FITS);
    w' := Served(w, ID, KEY, FITS);
    forall r | r in names ensures Waiting(w', r) {
      StillWaiting(w, ID, KEY, FITS, r);
    }
    FitsIsReady(w, KEY);
  }

  lemma FitsIsReady(w: World, key: string)
    requires w.cfg == CFG
    ensures var w' := Served(w, ID, key, FITS); Effects.Acceptable(w', ID) && ID in Effects.Ready(w') && NotDone(w', ID)
  {
  }

  lemma WaitingClogs(w: World, clog: set<Id>)
    requires |clog| >= MAX_LIST_LIMIT && ID !in clog && forall r | r in clog :: Waiting(w, r)
    ensures Recovery.Clogged(w, ID)
  {
    forall r | r in clog ensures r in Recovery.Clog(w, ID) {
      assert Waiting(w, r);
    }
    SetSizes(clog, Recovery.Clog(w, ID));
  }

  /** The third hole happens too: a recording whose transcript is there and fits, on a box with a page of results that
      cannot be stored. */
  lemma CloggedIsReachable() returns (w: World, clog: set<Id>)
    ensures Reachable(w) && w.procs == map[] && w.cfg == CFG
    ensures Effects.Acceptable(w, ID) && ID in Effects.Ready(w) && Clogged(w, ID, clog)
    ensures !Recovery.OwnResultStuck(w, ID) && !Recovery.Crowded(w, ID) && !Exactness.Finishable(w, ID)
  {
    var before;
    before, clog := PageOfRefused(MAX_LIST_LIMIT);
    w := OneMoreReady(before, clog);
    WaitingClogs(w, clog);
    ReadyIsNotStuck(w, ID);
    Exactness.FinishableExactly(w, ID);
  }

  lemma ReadyIsNotStuck(w: World, id: Id)
    requires id in Effects.Ready(w) && id in w.db.recs
    ensures !Recovery.OwnResultStuck(w, id) && !Recovery.Crowded(w, id)
  {
  }
}
