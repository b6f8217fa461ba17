/** Any number of collectors over one fixed set of finished jobs end where a single one would. */
module Confluence {
  import opened Wrappers
  import opened Core
  import opened Protocol
  import opened PersistThenAck

  /** Steps of collectors, crashes included, while nothing else goes on. */
  predicate Collecting(a: Act) {
    a.Gather? || a.Exit? || (a.Outside? && a.o.Tick?)
  }

  /** What a client can see of a recording: state and error of its row, description of its event. */
  datatype View = View(row: Option<(RowState, Option<string>)>, description: Option<string>)

  function ViewOf(db: Db, id: Id): View {
    View(if id in db.recs then Some((db.recs[id].state, db.recs[id].error)) else None,
         if id in db.events then db.events[id].description else None)
  }

  predicate SameIds(db: Db, db': Db) {
    db.recs.Keys == db'.recs.Keys && db.events.Keys == db'.events.Keys
  }

  /** The verdict on a job that has been decided before: the transcript is there, anything else comes out again. */
  function Again(v: Verdict): Verdict {
    if v.Wrote? then AlreadyDone else v
  }

  function Decide(db: Db, id: Id, status: Status, now: int): Db {
    Commit(db, id, Judge(db, id, status), now)
  }

  // --- the persist of one job, as an operation on what is visible --------------------------

  /** The verdict depends only on what is visible. */
  lemma JudgedByView(db: Db, db': Db, id: Id, status: Status)
    requires SameIds(db, db') && ViewOf(db, id) == ViewOf(db', id)
    ensures Judge(db, id, status) == Judge(db', id, status)
  {
  }

  /** Persisting twice is persisting once, whenever the two happen. */
  lemma DecideTwice(db: Db, id: Id, status: Status, now: int, later: int)
    ensures Judge(Decide(db, id, status, now), id, status) == Again(Judge(db, id, status))
    ensures ViewOf(Decide(Decide(db, id, status, now), id, status, later), id) == ViewOf(Decide(db, id, status, now), id)
    ensures SameIds(db, Decide(db, id, status, now))
  {
  }

  lemma DecideByView(db: Db, db': Db, id: Id, status: Status, now: int, now': int)
    requires SameIds(db, db') && ViewOf(db, id) == ViewOf(db', id)
    ensures ViewOf(Decide(db, id, status, now), id) == ViewOf(Decide(db', id, status, now'), id)
  {
  }

  lemma DecideElsewhere(db: Db, id: Id, status: Status, now: int, other: Id)
    requires other != id
    ensures ViewOf(Decide(db, id, status, now), other) == ViewOf(db, other)
  {
  }

  // --- the invariant of a collecting run ---------------------------------------------------

  predicate About(e: Entry, id: Id) {
    e.Decided? && e.job.id == id
  }

  /** Some decision about `id` is in the history from length `n` on. */
  ghost predicate Touched(w: World, n: nat, id: Id) {
    exists k :: n <= k < |w.log| && About(w.log[k], id)
  }

  /** How often a transcript of `id` was written, from length `n` on. */
  function Writings(log: seq<Entry>, n: nat, id: Id): nat
    requires n <= |log|
  {
    if |log| == n then 0
    else Writings(log[..|log| - 1], n, id) + (if Writes(log[|log| - 1], id) then 1 else 0)
  }

  predicate FromStart(w0: World, it: Item) {
    it.id in Terminal(w0.box) && it == ItemOf(w0.box, it.id)
  }

  /** Every process is a collector whose page consists of the original jobs; what it may acknowledge is decided. */
  ghost predicate PagesFromStart(w0: World, w: World) {
    && (forall p | p in w.procs :: w.procs[p].Collector?)
    && (forall p, it | p in w.procs && it in w.procs[p].todo :: FromStart(w0, it))
    && (forall p, it | p in w.procs && it in w.procs[p].ackable :: Touched(w, |w0.log|, it.id))
  }

  /** The box only loses jobs, and only decided ones. */
  ghost predicate BoxShrinks(w0: World, w: World) {
    && (forall id | id in w.box :: id in w0.box && w.box[id] == w0.box[id])
    && (forall id | id in w0.box && id !in w.box :: Touched(w, |w0.log|, id))
  }

  /** A recording is as it was, or as its one job leaves it; in the latter case its transcript, if it has one
      to get, has been written once. */
  ghost predicate Settles(w0: World, w: World, id: Id) {
    var n := |w0.log|;
    n <= |w.log| &&
    if Touched(w, n, id) then
      && id in Terminal(w0.box)
      && Commits(Judge(w0.db, id, w0.box[id].status), Clean)
      && ViewOf(w.db, id) == ViewOf(Decide(w0.db, id, w0.box[id].status, 0), id)
      && Writings(w.log, n, id) == (if Judge(w0.db, id, w0.box[id].status).Wrote? then 1 else 0)
    else
      ViewOf(w.db, id) == ViewOf(w0.db, id) && Writings(w.log, n, id) == 0
  }

  ghost predicate Inv(w0: World, w: World) {
    && w0.log <= w.log && SameIds(w0.db, w.db)
    && PagesFromStart(w0, w) && BoxShrinks(w0, w)
    && forall id :: Settles(w0, w, id)
  }

  lemma TouchedStays(w: World, w': World, n: nat)
    requires w.log <= w'.log
    ensures forall id | Touched(w, n, id) :: Touched(w', n, id)
  {
  }

  /** How a decision about `it` extends the history. */
  predicate Extends(w: World, w': World, it: Item, v: Verdict) {
    && w.log <= w'.log && |w.log| < |w'.log| <= |w.log| + 2
    && (|w'.log| == |w.log| + 2 ==> w'.log[|w.log|] == SentBack(it.id))
    && w'.log[|w'.log| - 1].Decided? && w'.log[|w'.log| - 1].job == it && w'.log[|w'.log| - 1].verdict == v
  }

  lemma WritingsGrow(w: World, w': World, n: nat, it: Item, v: Verdict, id: Id)
    requires n <= |w.log| && Extends(w, w', it, v)
    ensures Writings(w'.log, n, id) == Writings(w.log, n, id) + (if v.Wrote? && id == it.id then 1 else 0)
  {
    var last := w'.log[..|w'.log| - 1];
    if |w'.log| == |w.log| + 2 {
      assert last[..|last| - 1] == w.log;
    } else {
      assert last == w.log;
    }
  }

  /** The step that matters: one more decision about a job, by whichever collector, first or not. */
  lemma DecisionSettles(w0: World, w: World, w': World, it: Item, id: Id)
    requires Settles(w0, w, id) && SameIds(w0.db, w.db) && FromStart(w0, it)
    requires var v := Judge(w.db, it.id, it.status);
             Commits(v, Clean) && Extends(w, w', it, v) && w'.db == Commit(w.db, it.id, v, w.now)
    ensures Settles(w0, w', id)
  {
    var n := |w0.log|;
    var v := Judge(w.db, it.id, it.status);
    WritingsGrow(w, w', n, it, v, id);
    TouchedStays(w, w', n);
    if id != it.id {
      DecideElsewhere(w.db, it.id, it.status, w.now, id);
      if Touched(w', n, id) {
        var k :| n <= k < |w'.log| && About(w'.log[k], id);
        assert k < |w.log| && w.log[k] == w'.log[k];
      }
    } else {
      assert About(w'.log[|w'.log| - 1], id);
      var once := Decide(w0.db, id, it.status, 0);
      DecideTwice(w0.db, id, it.status, 0, w.now);
      if Touched(w, n, id) {
        JudgedByView(w.db, once, id, it.status);
        DecideByView(w.db, once, id, it.status, w.now, w.now);
      } else {
        JudgedByView(w.db, w0.db, id, it.status);
        DecideByView(w.db, w0.db, id, it.status, w.now, 0);
      }
    }
  }

  lemma PersistPages(w0: World, w: World, p: Pid, fault: Fault)
    requires Inv(w0, w) && CanGather(w, p, Persist(fault))
    ensures PagesFromStart(w0, DoPersist(w, p, fault)) && BoxShrinks(w0, DoPersist(w, p, fault))
  {
    var w' := DoPersist(w, p, fault);
    var it := w.procs[p].todo[0];
    TouchedStays(w, w', |w0.log|);
    if Commits(Judge(w.db, it.id, it.status), fault) {
      assert About(w'.log[|w'.log| - 1], it.id);
    }
  }

  lemma PersistExtends(w0: World, w: World, p: Pid, fault: Fault)
    requires Inv(w0, w) && CanGather(w, p, Persist(fault))
    ensures var it, w' := w.procs[p].todo[0], DoPersist(w, p, fault);
            var v := Judge(w.db, it.id, it.status);
            && FromStart(w0, it)
            && if Commits(v, fault) then Extends(w, w', it, v) && w'.db == Commit(w.db, it.id, v, w.now)
               else w'.log == w.log && w'.db == w.db
  {
  }

  lemma SameSettles(w0: World, w: World, w': World, id: Id)
    requires Settles(w0, w, id) && w'.log == w.log && w'.db == w.db
    ensures Settles(w0, w', id)
  {
  }

  lemma PersistSettles(w0: World, w: World, p: Pid, fault: Fault, id: Id)
    requires Inv(w0, w) && CanGather(w, p, Persist(fault))
    ensures Settles(w0, DoPersist(w, p, fault), id)
  {
    var w', it := DoPersist(w, p, fault), w.procs[p].todo[0];
    PersistExtends(w0, w, p, fault);
    if Commits(Judge(w.db, it.id, it.status), fault) {
      DecisionSettles(w0, w, w', it, id);
    } else {
      SameSettles(w0, w, w', id);
    }
  }

  lemma PersistStep(w0: World, w: World, p: Pid, fault: Fault)
    requires Inv(w0, w) && CanGather(w, p, Persist(fault))
    ensures Inv(w0, DoPersist(w, p, fault))
  {
    var w' := DoPersist(w, p, fault);
    PersistPages(w0, w, p, fault);
    PersistExtends(w0, w, p, fault);
    forall id ensures Settles(w0, w', id) {
      PersistSettles(w0, w, p, fault, id);
    }
  }

  lemma GatherStep(w0: World, w: World, p: Pid, g: GatherMove)
    requires Inv(w0, w) && CanGather(w, p, g)
    ensures Inv(w0, DoGather(w, p, g))
  {
    if g.Persist? {
      PersistStep(w0, w, p, g.fault);
    } else {
      var w' := DoGather(w, p, g);
      assert w'.log == w.log && w'.db == w.db;
      assert forall id :: Touched(w, |w0.log|, id) == Touched(w', |w0.log|, id);
      assert forall id :: Settles(w0, w, id) ==> Settles(w0, w', id);
    }
  }

  lemma Step(w0: World, w: World, a: Act)
    requires Inv(w0, w) && Enabled(w, a) && Collecting(a)
    ensures Inv(w0, Do(w, a))
  {
    if a.Gather? {
      GatherStep(w0, w, a.p, a.g);
    } else {
      var w' := Do(w, a);
      assert w'.log == w.log && w'.db == w.db && w'.box == w.box;
      assert forall id :: Touched(w, |w0.log|, id) == Touched(w', |w0.log|, id);
      assert forall id :: Settles(w0, w, id) ==> Settles(w0, w', id);
    }
  }

  lemma {:induction false} RunKeeps(w0: World, w: World, acts: seq<Act>)
    requires Inv(w0, w) && Legal(w, acts) && forall a | a in acts :: Collecting(a)
    ensures Inv(w0, Run(w, acts))
    decreases |acts|
  {
    if acts != [] {
      Step(w0, w, acts[0]);
      RunKeeps(w0, Do(w, acts[0]), acts[1..]);
    }
  }

  // --- the theorems ----------------------------------------------------------------------------

  /** Everything that can be stored has been acknowledged. */
  ghost predicate Drained(w0: World, w: World) {
    forall id | id in Terminal(w0.box) && Judge(w0.db, id, w0.box[id].status) != Refused :: id !in w.box
  }

  lemma Starts(w0: World)
    requires w0.procs == map[]
    ensures Inv(w0, w0)
  {
  }

  /** Two collecting runs from the same jobs, with any collectors in any interleaving and crashes and failed
      writes anywhere, end with the same states, errors and descriptions once they have drained the box.
      One collector on its own is one of them. */
  lemma CollectorsAreConfluent(w0: World, acts: seq<Act>, others: seq<Act>, id: Id)
    requires w0.procs == map[] && Legal(w0, acts) && Legal(w0, others)
    requires forall a | a in acts + others :: Collecting(a)
    requires Drained(w0, Run(w0, acts)) && Drained(w0, Run(w0, others))
    ensures ViewOf(Run(w0, acts).db, id) == ViewOf(Run(w0, others).db, id)
  {
    Starts(w0);
    assert forall a | a in acts :: a in acts + others;
    assert forall a | a in others :: a in acts + others;
    RunKeeps(w0, w0, acts);
    RunKeeps(w0, w0, others);
    assert Settles(w0, Run(w0, acts), id) && Settles(w0, Run(w0, others), id);
  }

  /** Along the way, at any moment, each transcript has been written at most once, by whichever collector came
      first; and once its job is gone from the box, exactly once. */
  lemma WrittenOnce(w0: World, acts: seq<Act>, id: Id)
    requires w0.procs == map[] && Legal(w0, acts) && forall a | a in acts :: Collecting(a)
    requires id in Terminal(w0.box) && Judge(w0.db, id, w0.box[id].status).Wrote?
    ensures var w := Run(w0, acts);
            && |w0.log| <= |w.log| && Writings(w.log, |w0.log|, id) <= 1
            && (id !in w.box ==> Writings(w.log, |w0.log|, id) == 1 && id in w.db.recs && w.db.recs[id].state == Done)
  {
    Starts(w0);
    RunKeeps(w0, w0, acts);
    assert Settles(w0, Run(w0, acts), id);
  }

  /** In the middle of a collecting run a collector persists the next job of its page. */
  lemma PersistInRun(w0: World, w: World, p: Pid, fault: Fault)
    requires Inv(w0, w) && CanGather(w, p, Persist(fault)) && !fault.RolledBack?
    requires var it := w.procs[p].todo[0]; Judge(w0.db, it.id, it.status).Wrote?
    ensures var it, w' := w.procs[p].todo[0], DoPersist(w, p, fault);
            if Touched(w, |w0.log|, it.id)
            then w'.db == w.db && it in w'.procs[p].ackable && w'.log == w.log + [Decided(p, it, AlreadyDone)]
            else w'.log == w.log + [Decided(p, it, Judge(w0.db, it.id, it.status))]
  {
    var it := w.procs[p].todo[0];
    assert FromStart(w0, it) by {
      assert it in w.procs[p].todo;
    }
    assert Settles(w0, w, it.id);
    var once := Decide(w0.db, it.id, it.status, 0);
    if Touched(w, |w0.log|, it.id) {
      DecideTwice(w0.db, it.id, it.status, 0, 0);
      JudgedByView(w.db, once, it.id, it.status);
    } else {
      JudgedByView(w.db, w0.db, it.id, it.status);
    }
  }

  /** At every persist of every collecting run, for a job whose transcript can be stored: the first collector to decide it
      writes it, and every later one finds it written, changes nothing and may still acknowledge it, whatever tagging
      does. */
  lemma LaterOnesSkip(w0: World, acts: seq<Act>, k: nat)
    requires w0.procs == map[] && Legal(w0, acts) && forall a | a in acts :: Collecting(a)
    requires k < |acts| && acts[k].Gather? && acts[k].g.Persist? && !acts[k].g.fault.RolledBack?
    ensures Legal(w0, acts[..k]) && Enabled(Run(w0, acts[..k]), acts[k])
    ensures var w, w' := Run(w0, acts[..k]), Do(Run(w0, acts[..k]), acts[k]);
            var it := w.procs[acts[k].p].todo[0];
            Judge(w0.db, it.id, it.status).Wrote? ==>
              if Touched(w, |w0.log|, it.id)
              then && w'.db == w.db && it in w'.procs[acts[k].p].ackable
                   && w'.log == w.log + [Decided(acts[k].p, it, AlreadyDone)]
              else w'.log == w.log + [Decided(acts[k].p, it, Judge(w0.db, it.id, it.status))]
  {
    Split(w0, acts, k);
    Starts(w0);
    assert forall a | a in acts[..k] :: a in acts;
    RunKeeps(w0, w0, acts[..k]);
    var w := Run(w0, acts[..k]);
    var it := w.procs[acts[k].p].todo[0];
    if Judge(w0.db, it.id, it.status).Wrote? {
      PersistInRun(w0, w, acts[k].p, acts[k].g.fault);
    }
  }
}
