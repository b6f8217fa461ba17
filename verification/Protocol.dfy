/** The pipeline as a distributed protocol. Workers, collectors and sweeps are processes that share the
    tables, the box, the audio bucket and the task queue; between any two of their awaits anything else may
    happen, and a process may vanish at any point. A run is a sequence of actions. */
module Protocol {
  import opened Wrappers
  import opened Core

  type Pid = nat

  /** Where one `run_transcription` stands: the row it read, then what it has established so far. */
  datatype Pc =
    | Found(rec: Recording)
    | Owned(rec: Recording)
    | Linked(rec: Recording)
    | Holding(audio: Bytes)
    | Conflicted(audio: Bytes)
    | Cleared(audio: Bytes)
    | Failing(reason: string)
    | Reverting

  /** Where one sweep stands after its collection: the clock read, checking stuck rows, about to revert a lost one,
      about to re-enqueue it, or sending the stale pending rows. */
  datatype Phase = Starting | Scanning | Losing(id: Id) | Resending(id: Id) | Sending

  datatype Proc =
    | Worker(id: Id, pc: Pc)
    | Collector(todo: seq<Item>, ackable: seq<Item>)
    | Sweeper(began: int, phase: Phase, rows: seq<Id>, lookups: nat, sent: seq<Id>)

  /** The history of a run: claims, writes that took a row back, and committed decisions about drained jobs. */
  datatype Entry =
    | ClaimWon(id: Id)
    | ClaimLost(id: Id)
    | SentBack(id: Id)
    | Decided(who: Pid, job: Item, verdict: Verdict)

  datatype World = World(
    cfg: Settings, now: int, born: set<Id>, db: Db, objects: map<string, Bytes>,
    queue: multiset<Id>, box: map<Id, Job>, serial: nat, procs: map<Pid, Proc>, log: seq<Entry>)

  /** The clock, the clients, the bucket and the queue. */
  datatype OutsideMove =
    | Tick(to: int)
    | Create(id: Id, rec: Recording, event: Event)
    | Upload(key: string, audio: Bytes)
    | DeleteEvent(id: Id)
    | DeleteRow(id: Id)
    | Enqueue(id: Id)
    | Retire(id: Id)

  datatype BoxMove = Start(id: Id) | Finish(id: Id, result: Result) | Expire(id: Id)

  datatype WorkMove =
    | Deliver(id: Id)
    | Claim
    | LookUp
    | Download(configured: bool)
    | Submit(wire: Wire)
    | Discard(wire: Wire)
    | Fail
    | Revert

  datatype GatherMove = Open | Drain(page: seq<Item>) | Persist(fault: Fault) | Ack(wire: Wire)

  datatype SweepMove =
    | Begin
    | Pick(stuck: seq<Id>)
    | Check(wire: Wire)
    | TakeBack
    | Resend(ok: bool)
    | Select(pending: seq<Id>)
    | Send(ok: bool)

  /** One step of the system: by the outside, by the box, by one process, or a process ending
      (normally or by a crash, at any point). */
  datatype Act =
    | Outside(o: OutsideMove)
    | AtBox(b: BoxMove)
    | Work(p: Pid, x: WorkMove)
    | Gather(p: Pid, g: GatherMove)
    | Sweep(p: Pid, s: SweepMove)
    | Exit(p: Pid)

  function Init(cfg: Settings, now: int): World {
    World(cfg, now, {}, Db(map[], map[]), map[], multiset{}, map[], 0, map[], [])
  }

  predicate Initial(w: World) {
    w == Init(w.cfg, w.now)
  }

  predicate WorkerAt(w: World, p: Pid) {
    p in w.procs && w.procs[p].Worker?
  }

  predicate CollectorAt(w: World, p: Pid) {
    p in w.procs && w.procs[p].Collector?
  }

  predicate SweeperAt(w: World, p: Pid) {
    p in w.procs && w.procs[p].Sweeper?
  }

  function SetProc(w: World, p: Pid, proc: Proc): World {
    w.(procs := w.procs[p := proc])
  }

  function Gone(w: World, p: Pid): World {
    w.(procs := w.procs - {p})
  }

  /** The history entry of an unconditional write: it only counts when a row was there to be moved. */
  function BackEntry(db: Db, id: Id): seq<Entry> {
    if id in db.recs then [SentBack(id)] else []
  }

  function WithTask(w: World, id: Id, ok: bool): World {
    if ok then w.(queue := w.queue + multiset{id}) else w
  }

  // --- the outside and the box ---------------------------------------------------

  predicate CanOutside(w: World, o: OutsideMove) {
    match o
    case Tick(to) => w.now <= to
    case Create(id, rec, _) =>
      id !in w.born && rec.state == Pending && rec.error == None && rec.updatedAt == w.now
    case DeleteEvent(id) => id in w.db.events
    case DeleteRow(id) => id in w.db.recs
    case Retire(id) => id in w.queue
    case _ => true
  }

  function DoOutside(w: World, o: OutsideMove): World
    requires CanOutside(w, o)
  {
    match o
    case Tick(to) => w.(now := to)
    case Create(id, rec, event) =>
      w.(born := w.born + {id}, db := Db(w.db.recs[id := rec], w.db.events[id := event]))
    case Upload(key, audio) => w.(objects := w.objects[key := audio])
    case DeleteEvent(id) => w.(db := w.db.(events := w.db.events - {id}))
    case DeleteRow(id) => w.(db := Db(w.db.recs - {id}, w.db.events - {id}))
    case Enqueue(id) => WithTask(w, id, true)
    case Retire(id) => w.(queue := w.queue - multiset{id})
  }

  predicate CanBox(w: World, b: BoxMove) {
    match b
    case Start(id) => id in w.box && w.box[id].status.Queued?
    case Finish(id, _) => id in w.box && w.box[id].status.Running?
    case Expire(id) => id in w.box
  }

  function DoBox(w: World, b: BoxMove): World
    requires CanBox(w, b)
  {
    match b
    case Start(id) => w.(box := w.box[id := w.box[id].(status := Running)])
    case Finish(id, result) => w.(box := w.box[id := w.box[id].(status := Finished(result))])
    case Expire(id) => w.(box := w.box - {id})
  }

  // --- one submission attempt ------------------------------------------------------

  predicate CanWork(w: World, p: Pid, x: WorkMove) {
    match x
    case Deliver(id) => p !in w.procs && id in w.queue && id in w.db.recs && w.db.recs[id].state != Done
    case Claim => WorkerAt(w, p) && w.procs[p].pc.Found?
    case LookUp => WorkerAt(w, p) && w.procs[p].pc.Owned?
    case Download(_) => WorkerAt(w, p) && w.procs[p].pc.Linked?
    case Submit(wire) =>
      // an honest box answers 409 only to other bytes; that reply is `Answered`, see `AfterSubmit`
      WorkerAt(w, p) && (w.procs[p].pc.Holding? || w.procs[p].pc.Cleared?) && wire != Turned(Refusal.Conflict)
    case Discard(_) => WorkerAt(w, p) && w.procs[p].pc.Conflicted?
    case Fail => WorkerAt(w, p) && w.procs[p].pc.Failing?
    case Revert => WorkerAt(w, p) && w.procs[p].pc.Reverting?
  }

  /** What follows the claim once the event has been looked up. */
  function AfterLookUp(w: World, id: Id, rec: Recording): Pc {
    if id !in w.db.events then Failing(NO_EVENT)
    else if rec.durationSec.Some? && rec.durationSec.value > w.cfg.maxDurationS then Failing(TOO_LONG)
    else Linked(rec)
  }

  function AfterDownload(w: World, key: string, configured: bool): Pc {
    if !configured then Reverting
    else if key !in w.objects then Failing(NO_AUDIO)
    else if |w.objects[key]| > w.cfg.maxUploadBytes then Failing(TOO_LARGE)
    else Holding(w.objects[key])
  }

  /** How an exception from the box ends an attempt: permanent ones fail the row, the others revert it. */
  function Caught(wire: Wire): Pc {
    if wire.Turned? && Hard(wire.why) then Failing(ErrorName(wire.why)) else Reverting
  }

  /** `POST /jobs` as it reaches the box: a new id is queued, the same bytes are an idempotent hit,
      other bytes change nothing (they are answered 409). */
  function BoxSubmit(w: World, id: Id, audio: Bytes): World {
    if id in w.box then w
    else w.(box := w.box[id := Job(w.serial, audio, Status.Queued)], serial := w.serial + 1)
  }

  predicate Conflicts(box: map<Id, Job>, id: Id, audio: Bytes) {
    id in box && box[id].audio != audio
  }

  /** What the worker does next after a submit: `None` when it was accepted and the attempt is over. */
  function AfterSubmit(w: World, id: Id, pc: Pc, wire: Wire): Option<Pc>
    requires pc.Holding? || pc.Cleared?
  {
    if wire.Answered? && Conflicts(w.box, id, pc.audio)
    then Some(if pc.Holding? then Conflicted(pc.audio) else Failing(ErrorName(Refusal.Conflict)))
    else if wire.Answered? then None
    else Some(Caught(wire))
  }

  function DoSubmit(w: World, p: Pid, wire: Wire): World
    requires CanWork(w, p, Submit(wire))
  {
    var Worker(id, pc) := w.procs[p];
    var w' := if wire.TakesEffect() then BoxSubmit(w, id, pc.audio) else w;
    match AfterSubmit(w, id, pc, wire)
    case None => Gone(w', p)
    case Some(next) => SetProc(w', p, Worker(id, next))
  }

  function DoWork(w: World, p: Pid, x: WorkMove): World
    requires CanWork(w, p, x)
  {
    match x
    case Deliver(id) => SetProc(w, p, Worker(id, Found(w.db.recs[id])))
    case Claim =>
      var Worker(id, pc) := w.procs[p];
      if Claimable(w.db, id)
      then SetProc(w, p, Worker(id, Owned(pc.rec))).(
             db := ClaimRow(w.db, id, w.now), log := w.log + [ClaimWon(id)])
      else Gone(w, p).(log := w.log + [ClaimLost(id)])
    case LookUp =>
      var Worker(id, pc) := w.procs[p];
      SetProc(w, p, Worker(id, AfterLookUp(w, id, pc.rec)))
    case Download(configured) =>
      var Worker(id, pc) := w.procs[p];
      SetProc(w, p, Worker(id, AfterDownload(w, pc.rec.storageKey, configured)))
    case Submit(wire) => DoSubmit(w, p, wire)
    case Discard(wire) =>
      var Worker(id, pc) := w.procs[p];
      SetProc(if wire.TakesEffect() then w.(box := w.box - {id}) else w, p,
              Worker(id, if wire.Answered? then Cleared(pc.audio) else Caught(wire)))
    case Fail =>
      var Worker(id, pc) := w.procs[p];
      Gone(w, p).(db := MarkFailed(w.db, id, pc.reason, w.now), log := w.log + BackEntry(w.db, id))
    case Revert =>
      var id := w.procs[p].id;
      Gone(w, p).(db := RevertPending(w.db, id, w.now), log := w.log + BackEntry(w.db, id))
  }

  // --- one collection --------------------------------------------------------------

  predicate CanGather(w: World, p: Pid, g: GatherMove) {
    match g
    case Open => p !in w.procs
    case Drain(page) =>
      CollectorAt(w, p) && w.procs[p].todo == [] && w.procs[p].ackable == [] && IsPage(w.box, page)
    case Persist(_) => CollectorAt(w, p) && w.procs[p].todo != []
    case Ack(_) => CollectorAt(w, p) && w.procs[p].todo == [] && w.procs[p].ackable != []
  }

  function DoPersist(w: World, p: Pid, fault: Fault): World
    requires CanGather(w, p, Persist(fault))
  {
    var Collector(todo, ackable) := w.procs[p];
    var it := todo[0];
    var v := Judge(w.db, it.id, it.status);
    if !Commits(v, fault) then SetProc(w, p, Collector(todo[1..], ackable)) else
    var back := if v.GaveUp? || v.Requeued? then BackEntry(w.db, it.id) else [];
    var held := if Ackable(w.db, it.id, v, fault) then ackable + [it] else ackable;
    SetProc(w, p, Collector(todo[1..], held)).(
      db := Commit(w.db, it.id, v, w.now),
      log := w.log + back + [Decided(p, it, v)])
  }

  function DoGather(w: World, p: Pid, g: GatherMove): World
    requires CanGather(w, p, g)
  {
    match g
    case Open => SetProc(w, p, Collector([], []))
    case Drain(page) => SetProc(w, p, Collector(page, []))
    case Persist(fault) => DoPersist(w, p, fault)
    case Ack(wire) =>
      var w' := if wire.TakesEffect() then w.(box := w.box - Ids(w.procs[p].ackable)) else w;
      if wire.Answered? then SetProc(w', p, Collector([], [])) else Gone(w', p)
  }

  // --- one sweep, after its collection -----------------------------------------------

  predicate CanSweep(w: World, p: Pid, s: SweepMove) {
    match s
    case Begin => p !in w.procs
    case Pick(stuck) =>
      SweeperAt(w, p) && w.procs[p].phase.Starting? &&
      IsBatch(w.db.recs, Transcribing, w.procs[p].began - w.cfg.staleSubmitted, w.cfg.batchLimit, stuck)
    case Check(_) => SweeperAt(w, p) && w.procs[p].phase.Scanning? && w.procs[p].rows != []
    case TakeBack => SweeperAt(w, p) && w.procs[p].phase.Losing?
    case Resend(_) => SweeperAt(w, p) && w.procs[p].phase.Resending?
    case Select(pending) =>
      SweeperAt(w, p) && w.procs[p].phase.Scanning? && w.procs[p].rows == [] &&
      IsBatch(w.db.recs, RowState.Pending, w.procs[p].began - w.cfg.stalePending, w.cfg.batchLimit, pending)
    case Send(_) => SweeperAt(w, p) && w.procs[p].phase.Sending? && w.procs[p].rows != []
  }

  function DoSweep(w: World, p: Pid, s: SweepMove): World
    requires CanSweep(w, p, s)
  {
    match s
    case Begin => SetProc(w, p, Sweeper(w.now, Starting, [], 0, []))
    case Pick(stuck) =>
      var Sweeper(began, _, _, lookups, sent) := w.procs[p];
      SetProc(w, p, Sweeper(began, Scanning, stuck, lookups, sent))
    case Check(wire) =>
      var Sweeper(began, _, rows, lookups, sent) := w.procs[p];
      var lost := wire.Answered? && rows[0] !in w.box;
      SetProc(w, p, Sweeper(began, if lost then Losing(rows[0]) else Scanning, rows[1..], lookups + 1, sent))
    case TakeBack =>
      var Sweeper(began, phase, rows, lookups, sent) := w.procs[p];
      SetProc(w, p, Sweeper(began, Resending(phase.id), rows, lookups, sent)).(
        db := RevertPending(w.db, phase.id, w.now), log := w.log + BackEntry(w.db, phase.id))
    case Resend(ok) =>
      var Sweeper(began, phase, rows, lookups, sent) := w.procs[p];
      WithTask(SetProc(w, p, Sweeper(began, Scanning, rows, lookups, sent + [phase.id])), phase.id, ok)
    case Select(pending) =>
      var Sweeper(began, _, _, lookups, sent) := w.procs[p];
      SetProc(w, p, Sweeper(began, Sending, pending, lookups, sent))
    case Send(ok) =>
      var Sweeper(began, _, rows, lookups, sent) := w.procs[p];
      WithTask(SetProc(w, p, Sweeper(began, Sending, rows[1..], lookups, sent + [rows[0]])), rows[0], ok)
  }

  // --- steps and runs ------------------------------------------------------------------

  predicate Enabled(w: World, a: Act) {
    match a
    case Outside(o) => CanOutside(w, o)
    case AtBox(b) => CanBox(w, b)
    case Work(p, x) => CanWork(w, p, x)
    case Gather(p, g) => CanGather(w, p, g)
    case Sweep(p, s) => CanSweep(w, p, s)
    case Exit(p) => p in w.procs
  }

  function Do(w: World, a: Act): World
    requires Enabled(w, a)
  {
    match a
    case Outside(o) => DoOutside(w, o)
    case AtBox(b) => DoBox(w, b)
    case Work(p, x) => DoWork(w, p, x)
    case Gather(p, g) => DoGather(w, p, g)
    case Sweep(p, s) => DoSweep(w, p, s)
    case Exit(p) => Gone(w, p)
  }

  predicate Legal(w: World, acts: seq<Act>)
    decreases |acts|
  {
    acts == [] || (Enabled(w, acts[0]) && Legal(Do(w, acts[0]), acts[1..]))
  }

  function Run(w: World, acts: seq<Act>): World
    requires Legal(w, acts)
    decreases |acts|
  {
    if acts == [] then w else Run(Do(w, acts[0]), acts[1..])
  }

  lemma {:induction false} Concat(w: World, first: seq<Act>, second: seq<Act>)
    requires Legal(w, first) && Legal(Run(w, first), second)
    ensures Legal(w, first + second) && Run(w, first + second) == Run(Run(w, first), second)
    decreases |first|
  {
    if first == [] {
      assert first + second == second;
    } else {
      Concat(Do(w, first[0]), first[1..], second);
      assert (first + second)[1..] == first[1..] + second;
    }
  }

  lemma {:induction false} Split(w: World, acts: seq<Act>, k: nat)
    requires Legal(w, acts) && k <= |acts|
    ensures Legal(w, acts[..k]) && Legal(Run(w, acts[..k]), acts[k..])
    ensures Run(w, acts) == Run(Run(w, acts[..k]), acts[k..])
    decreases |acts|
  {
    if k > 0 {
      Split(Do(w, acts[0]), acts[1..], k - 1);
      assert acts[..k][1..] == acts[1..][..k - 1];
      assert acts[k..] == acts[1..][k - 1..];
    } else {
      assert acts[..0] == [] && acts[0..] == acts;
    }
  }
}
