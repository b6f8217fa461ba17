/** What the theorems about the protocol say about executions of the code. An execution is a run of one process in its
    role (`Leads`), so whatever holds of all runs, or of all steps of a process, holds of it. That is shown of whole
    executions and of collections that die anywhere; an attempt or a sweep that dies enters as any run of its process. */
module Refinement {
  import opened Wrappers
  import opened Core
  import opened Protocol
  import opened Frames
  import opened Paths
  import opened PersistThenAck
  import ClaimExclusion
  import Collection

  /** Claims in the history of any executions are separated as in any run. */
  lemma ClaimsApart(w: World, w': World, p: Pid, role: Role, i: nat, j: nat, id: Id)
    requires Reachable(w) && Leads(w, w', p, role)
    requires i < j < |w'.log| && w'.log[i] == ClaimWon(id) == w'.log[j]
    ensures exists k :: i < k < j && w'.log[k] == SentBack(id)
  {
    LeadsReachable(w, w', p, role);
    var start, acts :| Initial(start) && Legal(start, acts) && Run(start, acts) == w';
    ClaimExclusion.ClaimsExclude(start, acts, i, j, id);
  }

  // --- a collection ----------------------------------------------------------------------------

  /** The box has only lost jobs. */
  predicate Shrinks(w: World, w': World) {
    forall id | id in w'.box :: id in w.box && w'.box[id] == w.box[id]
  }

  /** Everything it lost was decided before, by the history at the end. */
  ghost predicate LosesOnlyDecided(w: World, w': World) {
    forall id | id in w.box && id !in w'.box :: DecidedIn(w'.log, ItemOf(w.box, id))
  }

  lemma GatherShrinks(w: World, p: Pid, g: GatherMove)
    requires CanGather(w, p, g)
    ensures Shrinks(w, DoGather(w, p, g)) && w.log <= DoGather(w, p, g).log
    ensures !g.Ack? ==> DoGather(w, p, g).box == w.box
  {
  }

  lemma CollectorStep(w: World, a: Act, p: Pid)
    requires PersistThenAck.Inv(w) && Enabled(w, a) && Own(a, p, AsCollector)
    ensures PersistThenAck.Inv(Do(w, a)) && Shrinks(w, Do(w, a)) && w.log <= Do(w, a).log
    ensures LosesOnlyDecided(w, Do(w, a))
  {
    if a.Gather? {
      GatherShrinks(w, p, a.g);
      if a.g.Ack? {
        AckKeeps(w, a);
      }
    }
    assert !RenewsHeld(w, Do(w, a));
    PersistThenAck.Step(w, a);
    StaysWritten(w.log, Do(w, a).log);
  }

  lemma {:induction false} CollectorRun(w: World, acts: seq<Act>, p: Pid)
    requires PersistThenAck.Inv(w) && Legal(w, acts) && forall a | a in acts :: Own(a, p, AsCollector)
    ensures var w' := Run(w, acts);
            PersistThenAck.Inv(w') && Shrinks(w, w') && w.log <= w'.log && LosesOnlyDecided(w, w')
    decreases |acts|
  {
    if acts != [] {
      var next := Do(w, acts[0]);
      CollectorStep(w, acts[0], p);
      CollectorRun(next, acts[1..], p);
      StaysWritten(next.log, Run(w, acts).log);
    }
  }

  /** Whatever page answers, failures and raised errors it meets, one execution of `collect_transcripts` takes nothing off
      the box but results whose decision it, or one before it, has committed. */
  lemma CollectionAcksOnlyDecided(w: World, p: Pid, env: Collection.Season, visits: seq<Collection.Visit>)
    requires PersistThenAck.Inv(w) && p !in w.procs
    requires Collection.Stampings(visits) && Collection.Visits(Collection.Outset(w), env, visits)
    ensures var w' := Collection.Shown(w, p, env, visits);
            PersistThenAck.Inv(w') && Shrinks(w, w') && LosesOnlyDecided(w, w')
  {
    var w' := Collection.Shown(w, p, env, visits);
    Collection.CollectionIsRun(w, p, env, visits);
    var acts :| Legal(w, acts) && Run(w, acts) == w' && forall a | a in acts :: Own(a, p, AsCollector);
    CollectorRun(w, acts, p);
  }

  /** The same for one that dies somewhere on a page. */
  lemma BrokenOffAcksOnlyDecided(w: World, p: Pid, env: Collection.Season, visits: seq<Collection.Visit>,
                                 page: seq<Item>, n: nat, ts: seq<int>)
    requires PersistThenAck.Inv(w) && p !in w.procs
    requires Collection.Stampings(visits) && Collection.Visits(Collection.Outset(w), env, visits)
    requires Collection.LastTurn(Collection.Outset(w), env, visits).More?
    requires var mid := Collection.Shown(w, p, env, visits); IsPage(mid.box, page) && Collection.Stamped(mid.now, ts)
    requires n <= |page| && |ts| == n
    ensures var w' := Collection.BrokenOff(w, p, env, visits, page, n, ts);
            PersistThenAck.Inv(w') && Shrinks(w, w') && LosesOnlyDecided(w, w')
  {
    var w' := Collection.BrokenOff(w, p, env, visits, page, n, ts);
    Collection.BrokenOffIsRun(w, p, env, visits, page, n, ts);
    var acts :| Legal(w, acts) && Run(w, acts) == w' && forall a | a in acts :: Own(a, p, AsCollector);
    CollectorRun(w, acts, p);
  }

  // --- executions one after the other --------------------------------------------------------------

  /** What happens next: one execution, or one step of a client, the clock, the bucket, the queue or the box. */
  datatype Link = ByCode(p: Pid, role: Role) | ByOthers(a: Act)

  ghost predicate Linked(w: World, w': World, link: Link) {
    match link
    case ByCode(p, role) => Leads(w, w', p, role)
    case ByOthers(a) => (a.Outside? || a.AtBox?) && Enabled(w, a) && w' == Do(w, a)
  }

  predicate NoPages(w: World) {
    forall p | p in w.procs :: !w.procs[p].Collector?
  }

  lemma OthersStep(w: World, a: Act)
    requires PersistThenAck.Inv(w) && NoPages(w) && Enabled(w, a) && !a.Gather?
    ensures PersistThenAck.Inv(Do(w, a)) && NoPages(Do(w, a))
  {
    assert forall q, it :: !Holds(w, q, it);
    assert !RenewsHeld(w, Do(w, a));
    PersistThenAck.Step(w, a);
    StepPages(w, a);
    NoneAppears(w, a);
  }

  lemma WorkOpensNone(w: World, p: Pid, x: WorkMove)
    requires NoPages(w) && CanWork(w, p, x)
    ensures NoPages(DoWork(w, p, x))
  {
  }

  lemma SweepOpensNone(w: World, p: Pid, s: SweepMove)
    requires NoPages(w) && CanSweep(w, p, s)
    ensures NoPages(DoSweep(w, p, s))
  {
  }

  lemma NoneAppears(w: World, a: Act)
    requires NoPages(w) && Enabled(w, a) && !a.Gather?
    ensures NoPages(Do(w, a))
  {
    match a
    case Work(p, x) => WorkOpensNone(w, p, x);
    case Sweep(p, s) => SweepOpensNone(w, p, s);
    case _ =>
  }

  lemma {:induction false} OthersRun(w: World, acts: seq<Act>, p: Pid, role: Role)
    requires PersistThenAck.Inv(w) && NoPages(w) && Legal(w, acts) && !role.AsCollector?
    requires forall a | a in acts :: Own(a, p, role)
    ensures PersistThenAck.Inv(Run(w, acts))
    decreases |acts|
  {
    if acts != [] {
      assert Own(acts[0], p, role);
      OthersStep(w, acts[0]);
      OthersRun(Do(w, acts[0]), acts[1..], p, role);
    }
  }

  lemma LinkKeeps(w: World, w': World, link: Link)
    requires PersistThenAck.Inv(w) && w.procs == map[] && Linked(w, w', link)
    ensures PersistThenAck.Inv(w')
    ensures link.ByCode? && link.role.AsCollector? ==> LosesOnlyDecided(w, w')
  {
    match link
    case ByCode(p, role) =>
      var acts :| Legal(w, acts) && Run(w, acts) == w' && forall a | a in acts :: Own(a, p, role);
      if role.AsCollector? {
        CollectorRun(w, acts, p);
      } else {
        OthersRun(w, acts, p, role);
      }
    case ByOthers(a) =>
      OthersStep(w, a);
  }

  /** A day of the service: executions of its entry points one after the other, each run to its end or broken off, and
      anything by everybody else in between. */
  ghost predicate Day(worlds: seq<World>, links: seq<Link>) {
    && |worlds| == |links| + 1 && Initial(worlds[0])
    && (forall i | 0 <= i < |links| :: worlds[i].procs == map[] && Linked(worlds[i], worlds[i + 1], links[i]))
  }

  lemma {:induction false} DayKeeps(worlds: seq<World>, links: seq<Link>, k: nat)
    requires Day(worlds, links) && k <= |links|
    ensures PersistThenAck.Inv(worlds[k])
    decreases k
  {
    if k > 0 {
      DayKeeps(worlds, links, k - 1);
      LinkKeeps(worlds[k - 1], worlds[k], links[k - 1]);
    }
  }

  /** Persist, then acknowledge, for the code: in every day, no collection takes a result off the box that was not
      decided and committed by then. */
  lemma CodePersistsThenAcks(worlds: seq<World>, links: seq<Link>, k: nat)
    requires Day(worlds, links) && k < |links| && links[k].ByCode? && links[k].role.AsCollector?
    ensures LosesOnlyDecided(worlds[k], worlds[k + 1])
  {
    DayKeeps(worlds, links, k);
    LinkKeeps(worlds[k], worlds[k + 1], links[k]);
  }
}
