/** What any one step may do to the box and to the pages collectors hold. The safety proofs use these
    summaries instead of the step function itself. */
module Frames {
  import opened Wrappers
  import opened Core
  import opened Protocol

  predicate Holds(w: World, p: Pid, it: Item) {
    CollectorAt(w, p) && (it in w.procs[p].todo || it in w.procs[p].ackable)
  }

  /** An item on a page was on it before the step, or is drained off the box as it stands. */
  ghost predicate PagesFrom(w: World, w': World) {
    forall p, it | Holds(w', p, it) :: Holds(w, p, it) || (it.id in Terminal(w.box) && it == ItemOf(w.box, it.id))
  }

  /** A job keeps its submission and its audio, a finished one keeps everything, and a new one is a new submission. */
  ghost predicate BoxFrom(w: World, w': World) {
    && w.serial <= w'.serial
    && (forall id | id in w'.box :: JobFrom(w, w', id))
  }

  predicate JobFrom(w: World, w': World, id: Id)
    requires id in w'.box
  {
    if id in w.box
    then w'.box[id].serial == w.box[id].serial && w'.box[id].audio == w.box[id].audio &&
         (w.box[id].status.Finished? ==> w'.box[id] == w.box[id])
    else w'.box[id].serial == w.serial < w'.serial && !w'.box[id].status.Finished?
  }

  lemma WorkBox(w: World, p: Pid, x: WorkMove)
    requires CanWork(w, p, x)
    ensures BoxFrom(w, DoWork(w, p, x))
  {
  }

  lemma GatherBox(w: World, p: Pid, g: GatherMove)
    requires CanGather(w, p, g)
    ensures BoxFrom(w, DoGather(w, p, g))
  {
  }

  lemma SweepBox(w: World, p: Pid, s: SweepMove)
    requires CanSweep(w, p, s)
    ensures BoxFrom(w, DoSweep(w, p, s))
  {
  }

  lemma StepBox(w: World, a: Act)
    requires Enabled(w, a)
    ensures BoxFrom(w, Do(w, a))
  {
    match a
    case Work(p, x) => WorkBox(w, p, x);
    case Gather(p, g) => GatherBox(w, p, g);
    case Sweep(p, s) => SweepBox(w, p, s);
    case _ =>
  }

  lemma WorkPages(w: World, p: Pid, x: WorkMove)
    requires CanWork(w, p, x)
    ensures PagesFrom(w, DoWork(w, p, x))
  {
  }

  lemma GatherPages(w: World, p: Pid, g: GatherMove)
    requires CanGather(w, p, g)
    ensures PagesFrom(w, DoGather(w, p, g))
  {
  }

  lemma SweepPages(w: World, p: Pid, s: SweepMove)
    requires CanSweep(w, p, s)
    ensures PagesFrom(w, DoSweep(w, p, s))
  {
  }

  lemma StepPages(w: World, a: Act)
    requires Enabled(w, a)
    ensures PagesFrom(w, Do(w, a))
  {
    match a
    case Work(p, x) => WorkPages(w, p, x);
    case Gather(p, g) => GatherPages(w, p, g);
    case Sweep(p, s) => SweepPages(w, p, s);
    case _ =>
  }
}
