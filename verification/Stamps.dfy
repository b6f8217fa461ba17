/** `updated_at` only moves forward: whatever touches a row stamps it with the present. */
module Stamps {
  import opened Wrappers
  import opened Core
  import opened Protocol

  /** The row is as it was, or it was stamped in this step. */
  ghost predicate Restamps(w: World, w': World) {
    && w.now <= w'.now && w'.cfg == w.cfg
    && (forall id | id in w'.db.recs ::
          || (id in w.db.recs && Unmoved(w, w', id))
          || w'.db.recs[id].updatedAt == w.now)
  }

  predicate Unmoved(w: World, w': World, id: Id)
    requires id in w.db.recs && id in w'.db.recs
  {
    w'.db.recs[id].updatedAt == w.db.recs[id].updatedAt && w'.db.recs[id].state == w.db.recs[id].state
  }

  lemma WorkStamps(w: World, p: Pid, x: WorkMove)
    requires CanWork(w, p, x)
    ensures Restamps(w, DoWork(w, p, x))
  {
  }

  lemma GatherStamps(w: World, p: Pid, g: GatherMove)
    requires CanGather(w, p, g)
    ensures Restamps(w, DoGather(w, p, g))
  {
  }

  lemma SweepStamps(w: World, p: Pid, s: SweepMove)
    requires CanSweep(w, p, s)
    ensures Restamps(w, DoSweep(w, p, s))
  {
  }

  lemma OutsideStamps(w: World, o: OutsideMove)
    requires CanOutside(w, o)
    ensures Restamps(w, DoOutside(w, o))
  {
  }

  lemma StepStamps(w: World, a: Act)
    requires Enabled(w, a)
    ensures Restamps(w, Do(w, a))
  {
    match a
    case Outside(o) => OutsideStamps(w, o);
    case AtBox(b) =>
    case Work(p, x) => WorkStamps(w, p, x);
    case Gather(p, g) => GatherStamps(w, p, g);
    case Sweep(p, s) => SweepStamps(w, p, s);
    case Exit(p) =>
  }

  /** Over any run, a row is as it was at the start or carries a stamp no older than the start. */
  ghost predicate MovedOn(w: World, w': World) {
    && w.now <= w'.now && w'.cfg == w.cfg
    && (forall id | id in w'.db.recs ::
          || (id in w.db.recs && Unmoved(w, w', id))
          || w'.db.recs[id].updatedAt >= w.now)
  }

  lemma {:induction false} RunMovesOn(w: World, acts: seq<Act>)
    requires Legal(w, acts)
    ensures MovedOn(w, Run(w, acts))
    decreases |acts|
  {
    if acts != [] {
      StepStamps(w, acts[0]);
      RunMovesOn(Do(w, acts[0]), acts[1..]);
    }
  }

  predicate WellStamped(w: World) {
    forall id | id in w.db.recs :: w.db.recs[id].updatedAt <= w.now
  }

  lemma {:induction false} RunIsWellStamped(w: World, acts: seq<Act>)
    requires Legal(w, acts) && WellStamped(w)
    ensures WellStamped(Run(w, acts))
    decreases |acts|
  {
    if acts != [] {
      StepStamps(w, acts[0]);
      RunIsWellStamped(Do(w, acts[0]), acts[1..]);
    }
  }
}
